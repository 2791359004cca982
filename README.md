# Gradual learning-rate warmup, modelled in Dafny

This project models `GradualWarmupScheduler` from `warmup_scheduler/scheduler.py`.
It is the learning-rate warmup of "Accurate, Large Minibatch SGD: Training ImageNet
in 1 Hour". Each `step()` call on the controller advances its step counter and does one of three things:

- **Warmup** (`_step_count < warmup_steps`): the inherited base-class step advances
  both counters and writes `get_lr()` into the optimizer's parameter groups. With
  `multiplier == 1` the rate ramps linearly from 0 to `base_lr`. Otherwise it ramps
  from `base_lr` to `base_lr * multiplier`.
- **Handoff** (`_step_count == warmup_steps`): the post-warmup scheduler's `base_lrs`
  is overwritten with the multiplier-scaled base rates. Its `_step_count` and
  `last_epoch` are seeded with the controller's. Then it is stepped.
- **Delegation** (`_step_count > warmup_steps`): the post-warmup scheduler is stepped,
  and the controller's own counters advance by one.

Files:

- `ramp.dfy` (module `WarmupRamp`) holds the pure part: the ramp formula of
  `get_lr` (`RampRate`), the list `get_lr` returns (`GetLr`) and the scaled list
  handed over at handoff (`Scaled`). Its lemmas cover linearity, endpoints,
  monotonicity and bounds.
- `scheduler.dfy` (module `WarmupScheduler`) holds the stateful part. There is a
  class for the optimizer's groups (`Optimizer`), a class for the post-warmup
  scheduler (`PostScheduler`) and one for the controller (`GradualWarmupScheduler`).
  Its `Step` method is proved against the invariant `Valid()`, which says the
  handoff has fired at most once. A second predicate, `PostInSync()`, says the post
  scheduler holds `base * multiplier` (scaled once, never compounded) and counters
  equal to the controller's. `Step` establishes it at the handoff and keeps it on
  every later call.

Rates and the multiplier are `real`, so the linear formulas are exact.

## Model

| member | source | states |
|---|---|---|
| `WarmupRamp.RampIsLerp` | warmup_scheduler/scheduler.py:24-27 | both branches of the get_lr formula are the straight line from the ramp start (0 if multiplier is 1, else base_lr) to base_lr * multiplier, at fraction step/warmup_steps |
| `WarmupRamp.RampEndpoints` | warmup_scheduler/scheduler.py:24-27 | at step 0 the rate is 0 (multiplier 1) or base_lr (otherwise); at step == warmup_steps it is exactly base_lr * multiplier (base_lr when multiplier is 1) |
| `WarmupRamp.RampMonotone` | warmup_scheduler/scheduler.py:24-27 | for base_lr >= 0 and multiplier >= 1 the warmup rate never decreases as the step counter grows |
| `WarmupRamp.RampBounds` | warmup_scheduler/scheduler.py:24-27 | for base_lr >= 0, multiplier >= 1 and 0 <= step <= warmup_steps the rate lies between the ramp start (itself >= 0) and base_lr * multiplier |
| `WarmupRamp.GetLr` | warmup_scheduler/scheduler.py:22-27 | get_lr is defined only while step <= warmup_steps (its assertion) and warmup_steps > 0; it returns exactly one rate per base rate, in order, each the ramp value of that base rate |
| `WarmupRamp.Scaled` | warmup_scheduler/scheduler.py:35 | the handoff list has one entry per base rate, in order, each base rate times the multiplier |
| `WarmupRamp.WarmupRatesEndpoints` | warmup_scheduler/scheduler.py:24-35 | get_lr at step 0 is each group's ramp start; get_lr at the last warmup step equals the scaled list given to the post scheduler at handoff |
| `WarmupRamp.WarmupRatesBounded` | warmup_scheduler/scheduler.py:22-27 | with nonnegative base rates and multiplier >= 1, every rate get_lr returns lies in [0, base_lr * multiplier] |
| `WarmupRamp.WarmupRatesMonotone` | warmup_scheduler/scheduler.py:22-27 | group by group, get_lr at a later warmup step is never below get_lr at an earlier one |
| `WarmupRamp.DemoConfiguration` | warmup_scheduler/run.py:16 | with multiplier 1 and 200 warmup steps, the rate is 0 at step 0, half of base_lr at step 100 and base_lr at step 200 |
| `WarmupRamp.DoubleMultiplierMidpoint` | warmup_scheduler/scheduler.py:27 | with multiplier 2 and 10 warmup steps, the rate at step 5 is 1.5 * base_lr |
| `WarmupScheduler.WriteRates` | warmup_scheduler/scheduler.py:31 | the base step's write of get_lr into the groups: group i gets value i; groups beyond the list keep their rate; with equal lengths the groups become the list |
| `WarmupScheduler.HandoffFiresOnce` | warmup_scheduler/scheduler.py:29-40 | over any run of consecutive step() calls the handoff branch is taken exactly once if the counter passes warmup_steps, and never otherwise |
| `WarmupScheduler.PostScheduler.Step` | warmup_scheduler/scheduler.py:38 | the post scheduler's step advances its _step_count and last_epoch by one, keeps its base_lrs and writes its own (opaque) rates into its optimizer's groups |
| `WarmupScheduler.GradualWarmupScheduler.Init` | warmup_scheduler/scheduler.py:18-20 | a constructed controller satisfies its invariant, stores the multiplier, warmup_steps and post scheduler, captures base_lrs from the groups and has performed no handoff |
| `WarmupScheduler.GradualWarmupScheduler.Create` | warmup_scheduler/scheduler.py:14-20 | construction fails with a configuration error exactly when multiplier < 1; otherwise it yields a valid controller, so every controller has multiplier >= 1 |
| `WarmupScheduler.GradualWarmupScheduler.BaseStep` | warmup_scheduler/scheduler.py:29-31 | the inherited step advances both counters by one and writes get_lr at the new counter into the groups; it may run only where get_lr's assertion holds |
| `WarmupScheduler.GradualWarmupScheduler.Step` | warmup_scheduler/scheduler.py:29-40 | every call advances _step_count and last_epoch by one and never changes the controller's base_lrs. Below the horizon it writes the warmup rates, get_lr's assertion always holds, and neither the post scheduler nor its separate optimizer is touched. At the horizon it seeds the post scheduler with the scaled base rates and matching counters. Past it the post scheduler's base_lrs are kept, so nothing compounds, and a post scheduler in sync stays in sync. At or past the horizon exactly one post step runs, and the controller's own optimizer is untouched when it differs from the post scheduler's. The handoff count is 1 exactly when the counter has passed the horizon since construction |
| `WarmupScheduler.NoCompoundingScenario` | warmup_scheduler/scheduler.py:33-38 | with multiplier 2 and a 2-step warmup, the last warmup step writes 2 * base_lr; the handoff fires once; the post scheduler's base rate is 2 * base_lr after the handoff and still 2 * base_lr on a later call, with counters equal to the controller's |

## Left out

- The base-class constructor of torch's `_LRScheduler` is not part of this model.
  That includes its `initial_lr` bookkeeping and the initial step it takes. The
  counters it leaves behind are parameters of `Create`. `base_lrs` is captured from
  the groups' current rates.
- The post-warmup scheduler's own rate algorithm (for example MultiStepLR
  milestones) is not part of this model. It is an arbitrary function `policy` of
  its base rates, the groups' current rates and its epoch counter. Its `step()`
  is assumed to advance both `_step_count` and `last_epoch` by one.
- Floating-point rounding is not modelled: rates and the multiplier are reals.
- `get_lr`'s `AssertionError` and its division by zero are not modelled as errors.
  They are a precondition of `GetLr` (`0 < warmup_steps`, `step <= warmup_steps`).
  `Step` is proved to always meet it.
- `GradualWarmupScheduler.Step`: two assumptions about the post scheduler are
  not promised by the code itself. First, `PostScheduler.Step` keeps its
  `base_lrs`. Second, "the post scheduler stays in sync" holds only from one call
  to the next, while nothing but the controller changes the post scheduler (the
  owned-reference view). `Step` itself does not require the sync. Past the
  horizon it steps the post scheduler whatever state that scheduler is in, as the code does.
- `GradualWarmupScheduler.Step`: calling it at or past the horizon with no post
  scheduler (an `AttributeError` on `None` in the code) is excluded by a
  precondition instead of being modelled as an error.
- The code has no metric-driven (ReduceLROnPlateau-style) step path. The docstring
  mentions one, but no code implements it, so it is not modelled. The code also
  has no "hold `base_lr * multiplier` when there is no post scheduler" behaviour
  and no separate `finished` flag: every decision depends on the counter alone.
  With `warmup_steps == 0` and a counter of 0, the first call performs the handoff.
- The demo driver `warmup_scheduler/run.py` builds a torch optimizer, plots and
  saves an image. It is not modelled beyond its configuration (`DemoConfiguration`).
- Aliasing between the controller's optimizer and the post scheduler's optimizer
  is allowed but not required. `Step` states the groups' rates for the post
  scheduler's optimizer, and it states that the controller's own optimizer is
  untouched past the horizon when the two differ.
