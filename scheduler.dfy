/**
 GradualWarmupScheduler: the warmup / handoff / delegation state machine driven
 by repeated step() calls, together with the two collaborators it mutates: the
 optimizer's parameter groups and the post-warmup scheduler.
 */
module WarmupScheduler {
  import opened WarmupRamp

  datatype ConfigError = MultiplierBelowOne

  datatype Result<T> = Ok(value: T) | Err(error: ConfigError)

  /**
   What torch's base step does with the list get_lr returns: group i receives
   values[i] (zip stops at the shorter list, so extra groups keep their rate).
   */
  function WriteRates(groups: seq<real>, values: seq<real>): (r: seq<real>)
    ensures |r| == |groups|
    ensures forall i :: 0 <= i < |groups| ==> r[i] == (if i < |values| then values[i] else groups[i])
    ensures |values| == |groups| ==> r == values
  {
    if |values| >= |groups| then values[..|groups|] else values + groups[|values|..]
  }

  /**
   How many of `calls` consecutive step() calls take the handoff branch, when the
   counter starts at `start` and advances by one per call.
   */
  function HandoffCount(start: nat, calls: nat, warmupSteps: int): nat
  {
    if calls == 0 then 0
    else HandoffCount(start, calls - 1, warmupSteps) + (if start + calls - 1 == warmupSteps then 1 else 0)
  }

  /** The handoff fires exactly once if the counter passes the horizon, never otherwise. */
  lemma {:induction false} HandoffFiresOnce(start: nat, calls: nat, warmupSteps: int)
    ensures HandoffCount(start, calls, warmupSteps)
         == if start <= warmupSteps < start + calls then 1 else 0
  {
    if calls > 0 {
      HandoffFiresOnce(start, calls - 1, warmupSteps);
    }
  }

  /** The optimizer's parameter groups, reduced to the `lr` of each group. */
  class Optimizer {
    var groupLrs: seq<real>

    constructor (lrs: seq<real>)
      ensures groupLrs == lrs
    {
      groupLrs := lrs;
    }
  }

  /**
   The post-warmup scheduler (any torch scheduler). Its rate algorithm is not
   part of this model: `policy` maps its base rates, the groups' current rates and
   its epoch counter to the new rates.
   */
  class PostScheduler {
    const optimizer: Optimizer
    const policy: (seq<real>, seq<real>, int) -> seq<real>
    var baseLrs: seq<real>
    var stepCount: nat
    var lastEpoch: int
    /** Number of step() calls made on this scheduler. */
    ghost var stepCalls: nat

    constructor (optimizer: Optimizer, policy: (seq<real>, seq<real>, int) -> seq<real>,
                 baseLrs: seq<real>, stepCount: nat, lastEpoch: int)
      ensures this.optimizer == optimizer && this.policy == policy
      ensures this.baseLrs == baseLrs && this.stepCount == stepCount && this.lastEpoch == lastEpoch
      ensures stepCalls == 0
    {
      this.optimizer := optimizer;
      this.policy := policy;
      this.baseLrs := baseLrs;
      this.stepCount := stepCount;
      this.lastEpoch := lastEpoch;
      stepCalls := 0;
    }

    /** Advances both counters by one and writes the policy's rates into the groups. */
    method Step()
      modifies this, optimizer
      ensures baseLrs == old(baseLrs)
      ensures stepCount == old(stepCount) + 1 && lastEpoch == old(lastEpoch) + 1
      ensures stepCalls == old(stepCalls) + 1
      ensures optimizer.groupLrs
           == WriteRates(old(optimizer.groupLrs), policy(baseLrs, old(optimizer.groupLrs), lastEpoch))
    {
      stepCount := stepCount + 1;
      lastEpoch := lastEpoch + 1;
      stepCalls := stepCalls + 1;
      optimizer.groupLrs := WriteRates(optimizer.groupLrs, policy(baseLrs, optimizer.groupLrs, lastEpoch));
    }
  }

  class GradualWarmupScheduler {
    const optimizer: Optimizer
    const multiplier: real
    const warmupSteps: int
    const post: PostScheduler?
    var baseLrs: seq<real>
    var stepCount: nat
    var lastEpoch: int
    /** The step counter at construction, and the number of handoffs performed since. */
    ghost const startCount: nat
    ghost var handoffs: nat

    /**
     The controller's invariant: the multiplier guard held at construction, the
     counter only grew, and `handoffs` counts the calls that took the handoff
     branch (which needs a post scheduler).
     */
    ghost predicate Valid()
      reads this
    {
      multiplier >= 1.0 &&
      startCount <= stepCount &&
      handoffs == HandoffCount(startCount, stepCount - startCount, warmupSteps) &&
      (handoffs == 1 ==> post != null)
    }

    /**
     The post scheduler holds the multiplier-scaled base rates (scaled once) and
     counters equal to the controller's, as the handoff leaves it.
     */
    ghost predicate PostInSync()
      reads this, post
    {
      post != null &&
      post.baseLrs == Scaled(baseLrs, multiplier) &&
      post.stepCount == stepCount && post.lastEpoch == lastEpoch
    }

    /**
     The state after a successful __init__. Base rates are captured from the
     groups; the counters left by the base-class constructor are parameters.
     */
    constructor Init(optimizer: Optimizer, multiplier: real, warmupSteps: int, post: PostScheduler?,
                     stepCount: nat, lastEpoch: int)
      requires multiplier >= 1.0
      ensures Valid()
      ensures this.optimizer == optimizer && this.multiplier == multiplier
      ensures this.warmupSteps == warmupSteps && this.post == post
      ensures baseLrs == optimizer.groupLrs
      ensures this.stepCount == stepCount && this.lastEpoch == lastEpoch
      ensures startCount == stepCount && handoffs == 0
    {
      this.optimizer := optimizer;
      this.multiplier := multiplier;
      this.warmupSteps := warmupSteps;
      this.post := post;
      baseLrs := optimizer.groupLrs;
      this.stepCount := stepCount;
      this.lastEpoch := lastEpoch;
      startCount := stepCount;
      handoffs := 0;
    }

    /** __init__: fails with a configuration error exactly when multiplier < 1. */
    static method Create(optimizer: Optimizer, multiplier: real, warmupSteps: int, post: PostScheduler?,
                         stepCount: nat, lastEpoch: int)
      returns (r: Result<GradualWarmupScheduler>)
      ensures r.Err? <==> multiplier < 1.0
      ensures r.Err? ==> r.error == MultiplierBelowOne
      ensures r.Ok? ==>
        fresh(r.value) && r.value.Valid() &&
        r.value.optimizer == optimizer && r.value.multiplier == multiplier &&
        r.value.warmupSteps == warmupSteps && r.value.post == post &&
        r.value.baseLrs == optimizer.groupLrs &&
        r.value.stepCount == stepCount && r.value.lastEpoch == lastEpoch &&
        r.value.handoffs == 0
    {
      if multiplier < 1.0 {
        return Err(MultiplierBelowOne);
      }
      var s := new GradualWarmupScheduler.Init(optimizer, multiplier, warmupSteps, post, stepCount, lastEpoch);
      return Ok(s);
    }

    /**
     torch's base-class step() as this class inherits it: advance both counters,
     then write get_lr() into the groups. The requires is get_lr's assertion,
     which is evaluated after the increment.
     */
    method BaseStep()
      requires stepCount + 1 <= warmupSteps
      modifies this`stepCount, this`lastEpoch, optimizer
      ensures stepCount == old(stepCount) + 1 && lastEpoch == old(lastEpoch) + 1
      ensures optimizer.groupLrs
           == WriteRates(old(optimizer.groupLrs), GetLr(baseLrs, multiplier, stepCount, warmupSteps))
    {
      stepCount := stepCount + 1;
      lastEpoch := lastEpoch + 1;
      optimizer.groupLrs := WriteRates(optimizer.groupLrs, GetLr(baseLrs, multiplier, stepCount, warmupSteps));
    }

    /**
     step(): below the horizon, the base step writes the warmup rates; at the
     horizon, the handoff seeds the post scheduler and then delegates; past it,
     every call delegates. A post scheduler must exist once the horizon is reached.
     */
    method Step()
      requires Valid()
      requires stepCount >= warmupSteps ==> post != null
      modifies this, optimizer, post, if post != null then {post.optimizer} else {}
      ensures Valid()
      ensures stepCount == old(stepCount) + 1 && lastEpoch == old(lastEpoch) + 1
      ensures baseLrs == old(baseLrs)
      ensures handoffs == (if startCount <= warmupSteps < stepCount then 1 else 0)
      // warmup: the ramp is written, the post scheduler is left alone
      ensures old(stepCount) < warmupSteps ==>
        optimizer.groupLrs == WriteRates(old(optimizer.groupLrs), GetLr(baseLrs, multiplier, stepCount, warmupSteps))
        && (post != null ==> unchanged(post))
        && (post != null && post.optimizer != optimizer ==> unchanged(post.optimizer))
      // handoff: scaled base rates and the controller's counters, then one post step
      ensures old(stepCount) == warmupSteps ==>
        post.baseLrs == Scaled(baseLrs, multiplier) &&
        post.stepCount == stepCount && post.lastEpoch == lastEpoch
      // delegation: base rates untouched (no compounding), counters advanced by one
      ensures old(stepCount) > warmupSteps ==>
        post.baseLrs == old(post.baseLrs) &&
        post.stepCount == old(post.stepCount) + 1 && post.lastEpoch == old(post.lastEpoch) + 1
      // at or past the horizon: exactly one post step, whose rates reach the groups
      ensures old(stepCount) >= warmupSteps ==>
        post.stepCalls == old(post.stepCalls) + 1 &&
        post.optimizer.groupLrs
          == WriteRates(old(post.optimizer.groupLrs),
                        post.policy(post.baseLrs, old(post.optimizer.groupLrs), post.lastEpoch))
      ensures old(stepCount) >= warmupSteps && post.optimizer != optimizer ==> unchanged(optimizer)
      // the handoff puts the post scheduler in sync, and delegation keeps it so (no compounding)
      ensures old(stepCount) >= warmupSteps && (old(stepCount) == warmupSteps || old(PostInSync())) ==>
        PostInSync()
    {
      HandoffFiresOnce(startCount, stepCount - startCount, warmupSteps);
      if stepCount < warmupSteps {
        BaseStep();
      } else {
        if stepCount == warmupSteps {
          post.baseLrs := Scaled(baseLrs, multiplier);
          post.stepCount := stepCount;
          post.lastEpoch := lastEpoch;
          handoffs := handoffs + 1;
        }
        post.Step();
        stepCount := stepCount + 1;
        lastEpoch := lastEpoch + 1;
      }
      HandoffFiresOnce(startCount, stepCount - startCount, warmupSteps);
    }
  }

  /**
   A run with multiplier 2 and a 2-step warmup: the last warmup step writes
   2 * base, the third call hands off (the only handoff of the run), and after it
   and after a later call the post scheduler holds 2 * base with counters in
   step with the controller's.
   */
  method NoCompoundingScenario(baseLr: real) returns (atHandoff: seq<real>, later: seq<real>)
    ensures atHandoff == [2.0 * baseLr] && later == [2.0 * baseLr]
  {
    var opt := new Optimizer([baseLr]);
    var post := new PostScheduler(opt, (b: seq<real>, cur: seq<real>, e: int) => b, [baseLr], 0, 0);
    var r := GradualWarmupScheduler.Create(opt, 2.0, 2, post, 0, 0);
    var s := r.value;
    s.Step();
    s.Step();
    WarmupRatesEndpoints([baseLr], 2.0, 2);
    assert opt.groupLrs == [baseLr * 2.0];
    s.Step();
    atHandoff := post.baseLrs;
    assert s.handoffs == 1 && post.stepCalls == 1;
    s.Step();
    later := post.baseLrs;
    assert s.handoffs == 1 && post.stepCalls == 2;
    assert post.stepCount == s.stepCount == 4 && post.lastEpoch == s.lastEpoch == 4;
  }
}
