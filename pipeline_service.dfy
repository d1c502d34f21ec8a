/**
 * Bookkeeping of the pipeline service: whether a stage or step is gated by
 * conditions, the next cron run time, the run counters written back after a
 * run starts, and the validation of environment access keys.
 */
module PipelineService {
  import opened Wrappers
  import opened Model

  /** A condition set gates only when present and one of its lists is non-empty. */
  predicate HasCondition(c: Option<Conditions>) {
    c.Some? && (|c.value.all| > 0 || |c.value.any| > 0)
  }

  /** `HasStepCondition`. */
  predicate HasStepCondition(s: Step) {
    HasCondition(s.conditions)
  }

  /** `HasStageCondition`. */
  predicate HasStageCondition(s: Stage) {
    HasCondition(s.conditions)
  }

  // ---- GetNextRunTime ----

  /**
   * `GetNextRunTime`: the next firing of the pipeline's cron trigger, in epoch
   * milliseconds, or 0. `zoneLoads` says whether a time zone name loads,
   * `cronParses` whether a spec parses as a standard cron expression and
   * `nextFire` gives the next firing after the current time for a zone and a
   * spec; these stand for the zone database, the cron library and the clock.
   */
  function GetNextRunTime(p: Pipeline, zoneLoads: string -> bool, cronParses: string -> bool,
                          nextFire: (string, string) -> int): (r: int)
    ensures !p.isActivate ==> r == 0
    ensures p.cronTrigger.spec == "" ==> r == 0
    ensures !zoneLoads(p.cronTrigger.timezone) ==> r == 0
    ensures !cronParses(p.cronTrigger.spec) ==> r == 0
    ensures p.isActivate && p.cronTrigger.spec != "" && zoneLoads(p.cronTrigger.timezone) && cronParses(p.cronTrigger.spec) ==>
      r == nextFire(p.cronTrigger.timezone, p.cronTrigger.spec)
  {
    if !p.isActivate then 0
    else if p.cronTrigger.spec == "" then 0
    else if !zoneLoads(p.cronTrigger.timezone) then 0
    else if !cronParses(p.cronTrigger.spec) then 0
    else nextFire(p.cronTrigger.timezone, p.cronTrigger.spec)
  }

  // ---- UpdatePipelineEnvKey ----

  /**
   * The stored environment tokens, keyed by access key. `readFails` and
   * `writeFails` are the keys whose lookup or store fails.
   */
  class EnvKeyStore {
    var tokens: map<string, string>
    const readFails: set<string>
    const writeFails: set<string>

    constructor (tokens: map<string, string>, readFails: set<string>, writeFails: set<string>)
      ensures this.tokens == tokens && this.readFails == readFails && this.writeFails == writeFails
    {
      this.tokens := tokens;
      this.readFails := readFails;
      this.writeFails := writeFails;
    }

    /** `GetEnvKey`: the stored token, "" when none is stored. */
    function GetEnvKey(key: string): (r: Result<string, Error>)
      reads this
      ensures key in readFails <==> r.Err?
      ensures r.Ok? ==> r.value == Lookup(tokens, key)
    {
      if key in readFails then Err(EnvKeyStoreFailed(key)) else Ok(Lookup(tokens, key))
    }

    /** `CreateOrUpdateEnvKey`: store `token` for `key`. */
    method CreateOrUpdateEnvKey(key: string, token: string) returns (err: Option<Error>)
      modifies this`tokens
      ensures err == (if key in writeFails then Some(EnvKeyStoreFailed(key)) else None)
      ensures tokens == if key in writeFails then old(tokens) else old(tokens)[key := token]
    {
      if key in writeFails {
        return Some(EnvKeyStoreFailed(key));
      }
      tokens := tokens[key := token];
      return None;
    }
  }

  /** The token stored for `key`, "" when none is. */
  function Lookup(tokens: map<string, string>, key: string): string {
    if key in tokens then tokens[key] else ""
  }

  /**
   * One step of `UpdatePipelineEnvKey`: a step with both keys stores its
   * secret; a step with an access key only must find a non-empty stored token.
   */
  function StepEnvKeyF(tokens: map<string, string>, readFails: set<string>, writeFails: set<string>, step: Step)
    : (map<string, string>, Option<Error>)
  {
    if step.accessKey != "" && step.secretKey != "" then
      if step.accessKey in writeFails then (tokens, Some(EnvKeyStoreFailed(step.accessKey)))
      else (tokens[step.accessKey := step.secretKey], None)
    else if step.accessKey != "" then
      if step.accessKey in readFails then (tokens, Some(EnvKeyStoreFailed(step.accessKey)))
      else if Lookup(tokens, step.accessKey) == "" then (tokens, Some(MissingSecretToken))
      else (tokens, None)
    else (tokens, None)
  }

  /** `UpdatePipelineEnvKey` from step `j` of stage `i` to the end of that stage. */
  function StageEnvKeysF(tokens: map<string, string>, readFails: set<string>, writeFails: set<string>, p: Pipeline, i: nat, j: nat)
    : (map<string, string>, Option<Error>)
    requires i < |p.stages|
    decreases |p.stages[i].steps| - j
  {
    if j >= |p.stages[i].steps| then (tokens, None)
    else
      var r := StepEnvKeyF(tokens, readFails, writeFails, p.stages[i].steps[j]);
      if r.1.Some? then r else StageEnvKeysF(r.0, readFails, writeFails, p, i, j + 1)
  }

  /** `UpdatePipelineEnvKey` from stage `i` on. */
  function EnvKeysF(tokens: map<string, string>, readFails: set<string>, writeFails: set<string>, p: Pipeline, i: nat)
    : (map<string, string>, Option<Error>)
    decreases |p.stages| - i
  {
    if i >= |p.stages| then (tokens, None)
    else
      var r := StageEnvKeysF(tokens, readFails, writeFails, p, i, 0);
      if r.1.Some? then r else EnvKeysF(r.0, readFails, writeFails, p, i + 1)
  }

  /**
   * `UpdatePipelineEnvKey`: store the secret of every step that has both keys
   * and check that every step with an access key only has a token stored,
   * stopping at the first error.
   */
  method UpdatePipelineEnvKey(store: EnvKeyStore, p: Pipeline) returns (err: Option<Error>)
    modifies store`tokens
    ensures (store.tokens, err) == EnvKeysF(old(store.tokens), store.readFails, store.writeFails, p, 0)
  {
    ghost var t0 := store.tokens;
    var i := 0;
    while i < |p.stages|
      invariant 0 <= i <= |p.stages|
      invariant EnvKeysF(store.tokens, store.readFails, store.writeFails, p, i) == EnvKeysF(t0, store.readFails, store.writeFails, p, 0)
    {
      ghost var ti := store.tokens;
      var j := 0;
      while j < |p.stages[i].steps|
        invariant 0 <= j <= |p.stages[i].steps|
        invariant StageEnvKeysF(store.tokens, store.readFails, store.writeFails, p, i, j)
                  == StageEnvKeysF(ti, store.readFails, store.writeFails, p, i, 0)
      {
        var step := p.stages[i].steps[j];
        if step.accessKey != "" && step.secretKey != "" {
          err := store.CreateOrUpdateEnvKey(step.accessKey, step.secretKey);
          if err.Some? {
            return;
          }
        }
        if step.accessKey != "" && step.secretKey == "" {
          var token := store.GetEnvKey(step.accessKey);
          if token.Err? {
            return Some(token.error);
          }
          if token.value == "" {
            return Some(MissingSecretToken);
          }
        }
        j := j + 1;
      }
      i := i + 1;
    }
    return None;
  }

  // ---- properties of UpdatePipelineEnvKey ----

  /** A step with an access key has a non-empty token in `tokens`. */
  predicate Covered(tokens: map<string, string>, step: Step) {
    step.accessKey != "" ==> Lookup(tokens, step.accessKey) != ""
  }

  /** Every non-empty token of `t` is still non-empty in `r`. */
  ghost predicate KeepsTokens(t: map<string, string>, r: map<string, string>) {
    forall key :: Lookup(t, key) != "" ==> Lookup(r, key) != ""
  }

  lemma StepEnvKeyCovers(tokens: map<string, string>, readFails: set<string>, writeFails: set<string>, step: Step)
    ensures var r := StepEnvKeyF(tokens, readFails, writeFails, step);
      KeepsTokens(tokens, r.0) && (r.1.None? ==> Covered(r.0, step))
  {
  }

  lemma {:induction false} StageEnvKeysCover(tokens: map<string, string>, readFails: set<string>, writeFails: set<string>, p: Pipeline, i: nat, j: nat)
    requires i < |p.stages|
    ensures var r := StageEnvKeysF(tokens, readFails, writeFails, p, i, j);
      KeepsTokens(tokens, r.0)
      && (r.1.None? ==> forall l :: j <= l < |p.stages[i].steps| ==> Covered(r.0, p.stages[i].steps[l]))
    decreases |p.stages[i].steps| - j
  {
    if j < |p.stages[i].steps| {
      var r1 := StepEnvKeyF(tokens, readFails, writeFails, p.stages[i].steps[j]);
      StepEnvKeyCovers(tokens, readFails, writeFails, p.stages[i].steps[j]);
      if r1.1.None? {
        StageEnvKeysCover(r1.0, readFails, writeFails, p, i, j + 1);
      }
    }
  }

  /**
   * When `UpdatePipelineEnvKey` succeeds, every step with an access key has a
   * non-empty token stored, and no token that was non-empty became empty.
   */
  lemma {:induction false} EnvKeysCoverEveryStep(tokens: map<string, string>, readFails: set<string>, writeFails: set<string>, p: Pipeline, i: nat)
    ensures var r := EnvKeysF(tokens, readFails, writeFails, p, i);
      KeepsTokens(tokens, r.0)
      && (r.1.None? ==> forall k, l :: i <= k < |p.stages| && 0 <= l < |p.stages[k].steps| ==> Covered(r.0, p.stages[k].steps[l]))
    decreases |p.stages| - i
  {
    if i < |p.stages| {
      var r1 := StageEnvKeysF(tokens, readFails, writeFails, p, i, 0);
      StageEnvKeysCover(tokens, readFails, writeFails, p, i, 0);
      if r1.1.None? {
        EnvKeysCoverEveryStep(r1.0, readFails, writeFails, p, i + 1);
      }
    }
  }

  /** A step with an access key and no secret, meeting no stored token, stops the update with the missing-token error. */
  lemma MissingTokenStops(tokens: map<string, string>, readFails: set<string>, writeFails: set<string>, p: Pipeline, i: nat, j: nat)
    requires i < |p.stages| && j < |p.stages[i].steps|
    requires var step := p.stages[i].steps[j];
      step.accessKey != "" && step.secretKey == "" && step.accessKey !in readFails && Lookup(tokens, step.accessKey) == ""
    ensures StageEnvKeysF(tokens, readFails, writeFails, p, i, j) == (tokens, Some(MissingSecretToken))
  {
  }

  /** Only the access keys of steps with both keys get a token written. */
  lemma {:induction false} EnvKeysWriteOnlyStepKeys(tokens: map<string, string>, readFails: set<string>, writeFails: set<string>, p: Pipeline, i: nat, key: string)
    requires forall k, l :: i <= k < |p.stages| && 0 <= l < |p.stages[k].steps| ==>
      p.stages[k].steps[l].accessKey != key || p.stages[k].steps[l].secretKey == ""
    ensures Lookup(EnvKeysF(tokens, readFails, writeFails, p, i).0, key) == Lookup(tokens, key)
    decreases |p.stages| - i
  {
    if i < |p.stages| {
      var r1 := StageEnvKeysF(tokens, readFails, writeFails, p, i, 0);
      StageEnvKeysKeep(tokens, readFails, writeFails, p, i, 0, key);
      if r1.1.None? {
        EnvKeysWriteOnlyStepKeys(r1.0, readFails, writeFails, p, i + 1, key);
      }
    }
  }

  lemma {:induction false} StageEnvKeysKeep(tokens: map<string, string>, readFails: set<string>, writeFails: set<string>, p: Pipeline, i: nat, j: nat, key: string)
    requires i < |p.stages|
    requires forall l :: j <= l < |p.stages[i].steps| ==> p.stages[i].steps[l].accessKey != key || p.stages[i].steps[l].secretKey == ""
    ensures Lookup(StageEnvKeysF(tokens, readFails, writeFails, p, i, j).0, key) == Lookup(tokens, key)
    decreases |p.stages[i].steps| - j
  {
    if j < |p.stages[i].steps| {
      var r1 := StepEnvKeyF(tokens, readFails, writeFails, p.stages[i].steps[j]);
      if r1.1.None? {
        StageEnvKeysKeep(r1.0, readFails, writeFails, p, i, j + 1, key);
      }
    }
  }

  /**
   * Within one stage: a successful update leaves the secret of step `l` stored
   * under its access key when no later step of the stage writes that key.
   */
  lemma {:induction false} StageEnvKeysStoreSecret(tokens: map<string, string>, readFails: set<string>, writeFails: set<string>, p: Pipeline, i: nat, j: nat, l: nat)
    requires i < |p.stages| && j <= l < |p.stages[i].steps|
    requires var step := p.stages[i].steps[l]; step.accessKey != "" && step.secretKey != ""
    requires forall m :: l < m < |p.stages[i].steps| ==>
      p.stages[i].steps[m].accessKey != p.stages[i].steps[l].accessKey || p.stages[i].steps[m].secretKey == ""
    requires StageEnvKeysF(tokens, readFails, writeFails, p, i, j).1.None?
    ensures Lookup(StageEnvKeysF(tokens, readFails, writeFails, p, i, j).0, p.stages[i].steps[l].accessKey)
            == p.stages[i].steps[l].secretKey
    decreases |p.stages[i].steps| - j
  {
    var r1 := StepEnvKeyF(tokens, readFails, writeFails, p.stages[i].steps[j]);
    if j < l {
      StageEnvKeysStoreSecret(r1.0, readFails, writeFails, p, i, j + 1, l);
    } else {
      StageEnvKeysKeep(r1.0, readFails, writeFails, p, i, j + 1, p.stages[i].steps[l].accessKey);
    }
  }

  /**
   * A successful `UpdatePipelineEnvKey` leaves, under the access key of every
   * step with both keys, the secret of the last such step with that access key.
   */
  lemma {:induction false} EnvKeysStoreSecret(tokens: map<string, string>, readFails: set<string>, writeFails: set<string>, p: Pipeline, i: nat, k: nat, l: nat)
    requires i <= k < |p.stages| && l < |p.stages[k].steps|
    requires var step := p.stages[k].steps[l]; step.accessKey != "" && step.secretKey != ""
    requires forall k', m :: k <= k' < |p.stages| && 0 <= m < |p.stages[k'].steps| && (k < k' || l < m) ==>
      p.stages[k'].steps[m].accessKey != p.stages[k].steps[l].accessKey || p.stages[k'].steps[m].secretKey == ""
    requires EnvKeysF(tokens, readFails, writeFails, p, i).1.None?
    ensures Lookup(EnvKeysF(tokens, readFails, writeFails, p, i).0, p.stages[k].steps[l].accessKey)
            == p.stages[k].steps[l].secretKey
    decreases |p.stages| - i
  {
    var r1 := StageEnvKeysF(tokens, readFails, writeFails, p, i, 0);
    if i < k {
      EnvKeysStoreSecret(r1.0, readFails, writeFails, p, i + 1, k, l);
    } else {
      StageEnvKeysStoreSecret(tokens, readFails, writeFails, p, i, 0, l);
      EnvKeysWriteOnlyStepKeys(r1.0, readFails, writeFails, p, i + 1, p.stages[k].steps[l].accessKey);
    }
  }
}
