/**
 Authority continuity: the verdict on an operation from what a provider showed before it and
 shows after it.  Provider answers are inputs; what the resolver makes of them is modelled.
 */
module Authority {
  import opened Ordering
  import opened Blueprint

  /** `observedAt` is None when the timestamp does not parse or has no offset. */
  datatype Observation = Observation(token: string, scope: string, strength: string, observedAt: Option<int>, serializable: bool)

  datatype Evaluation = Evaluation(healthy: bool, observation: Option<Observation>)

  datatype IntervalStatus = Stable | Drifted | IntervalUnverifiable | IntervalInvalid
  datatype CompletionStatus = FreshRead | Stale | CompletionUnverifiable | CompletionInvalid
  datatype IntervalEvaluation = IntervalEvaluation(interval: IntervalStatus, completion: CompletionStatus, explained: bool)

  /** A provider call: a value of the right type, one of another type, or an exception. */
  datatype Answer<+T> = Value(v: T) | WrongType | ValueError | OtherError

  datatype Decision = Allow | Record | Deny

  datatype Receipt = Receipt(
    interval: IntervalStatus,
    completion: CompletionStatus,
    decision: Decision,
    before: Option<Observation>,
    after: Option<Observation>)

  /** What the provider answers over one dispatch. */
  datatype Provider = Provider(
    bound: bool,
    intervals: bool,
    atBegin: Answer<Evaluation>,
    verifiable: Answer<bool>,
    atCompletion: Answer<Evaluation>,
    overInterval: Answer<IntervalEvaluation>)

  predicate ValidObservation(o: Observation) {
    o.token != "" && o.scope != "" && o.strength != "" && o.observedAt.Some? && o.serializable
  }

  // ----- What the provider says ------------------------------------------------------------------

  /** An observation that can be taken at its word: complete, dated, and of plain data. */
  predicate Readable(o: Observation) {
    |o.token| > 0 && |o.scope| > 0 && |o.strength| > 0 && o.observedAt.Some? && o.serializable
  }

  /** The provider says that it is ready, and what it shows, if anything, can be read. */
  predicate Healthy(a: Answer<Evaluation>) {
    a.Value? && a.v.healthy && (a.v.observation.Some? ==> Readable(a.v.observation.value))
  }

  /** A bound provider that is ready, and whose observation, if it shows one, can be read. */
  predicate Admissible(p: Provider) {
    p.bound && Healthy(p.atBegin)
  }

  /** The provider lets an operation begin; the strict policy wants proof that it can judge it, too. */
  predicate Permits(p: Provider, policy: Option<OnUnverifiable>) {
    && Admissible(p)
    && (policy == Some(FailUnverified) ==> p.atBegin.v.observation.Some? && p.intervals && p.verifiable == Value(true))
  }

  /** The provider answers at completion, and what it answers is well formed. */
  predicate Answers(p: Provider) {
    && Healthy(p.atCompletion) && p.overInterval.Value? && p.overInterval.v.explained
    && p.overInterval.v.interval != IntervalInvalid && p.overInterval.v.completion != CompletionInvalid
  }

  /** Two readable observations of one scope around the operation, the second not too early. */
  ghost predicate Observed(r: Receipt, floor: int) {
    && r.before.Some? && r.after.Some? && Readable(r.after.value)
    && r.before.value.scope == r.after.value.scope
    && r.after.value.observedAt.value >= floor
  }

  /** Both ends of the operation have shown an observation, and the provider judges intervals. */
  predicate Seen(p: Provider, before: Option<Observation>) {
    before.Some? && Healthy(p.atCompletion) && p.atCompletion.v.observation.Some? && p.intervals
  }

  /** The second observation is older than the completion read. */
  predicate TooEarly(p: Provider, before: Option<Observation>, floor: int) {
    Seen(p, before) && p.atCompletion.v.observation.value.observedAt.value < floor
  }

  /** The observations are of one scope and the second is recent: the provider is asked to compare them. */
  predicate Asked(p: Provider, before: Option<Observation>, floor: int) {
    && Seen(p, before) && !TooEarly(p, before, floor)
    && p.atCompletion.v.observation.value.scope == before.value.scope
  }

  /** The provider is asked, and explains a verdict that is one of those it may give. */
  predicate Judged(p: Provider, before: Option<Observation>, floor: int) {
    Asked(p, before, floor) && Answers(p)
  }

  /** The provider vouches for the interval: nothing drifted over it, and the second read is fresh. */
  predicate Vouches(p: Provider, before: Option<Observation>, floor: int) {
    Asked(p, before, floor) && p.overInterval == Value(IntervalEvaluation(Stable, FreshRead, true))
  }

  /** The provider speaks against the interval. */
  predicate Objects(p: Provider, before: Option<Observation>, floor: int) {
    && Asked(p, before, floor) && p.overInterval.Value?
    && (p.overInterval.v.interval == Drifted || p.overInterval.v.completion == Stale)
  }

  /** A healthy provider leaves the interval open: it cannot be asked, or says that it cannot tell. */
  predicate LeavesOpen(p: Provider, before: Option<Observation>, floor: int) {
    && Healthy(p.atCompletion) && !TooEarly(p, before, floor)
    && (Asked(p, before, floor) ==> Judged(p, before, floor) && !Vouches(p, before, floor) && !Objects(p, before, floor))
  }

  // ----- What the resolver makes of it -----------------------------------------------------------

  /**
   `begin`: the observation the session starts from, or a refusal.  `bound` stands for the
   declaration, capability, registry and configuration checks.
   */
  function Begin(p: Provider, policy: Option<OnUnverifiable>): (r: Option<Option<Observation>>)
    ensures r.Some? <==> Permits(p, policy)
    ensures r.Some? ==> r.value == p.atBegin.v.observation
  {
    if !p.bound then None
    else if !p.atBegin.Value? || !p.atBegin.v.healthy then None
    else
      var before := p.atBegin.v.observation;
      if before.Some? && !ValidObservation(before.value) then None
      else if policy == Some(FailUnverified) && !(before.Some? && p.intervals && p.verifiable == Value(true)) then None
      else Some(before)
  }

  function Judge(e: IntervalEvaluation, policy: OnUnverifiable): Decision {
    if e.interval == Drifted then Deny
    else if e.completion == Stale then Deny
    else if e.interval == IntervalUnverifiable || e.completion == CompletionUnverifiable then
      if policy == RecordUnverified then Record else Deny
    else Allow
  }

  function Unavailable(before: Option<Observation>, after: Option<Observation>): Receipt {
    Receipt(IntervalUnverifiable, CompletionUnverifiable, Deny, before, after)
  }

  function Unverifiable(policy: OnUnverifiable, before: Option<Observation>, after: Option<Observation>): Receipt {
    Receipt(IntervalUnverifiable, CompletionUnverifiable,
            if policy == RecordUnverified then Record else Deny, before, after)
  }

  /**
   `complete`, branch by branch; `floor` is the time just before the completion read.
   The verdict is the provider's: "allow" exactly if it vouches for the interval, "record" exactly
   if it leaves the interval open and the policy consents, denied otherwise; no policy consents to
   drift or to a stale read.  The receipt repeats what the provider said and showed.
   */
  function Complete(p: Provider, before: Option<Observation>, policy: OnUnverifiable, floor: int): (r: Receipt)
    ensures r.decision == Allow <==> Observed(r, floor) && r.interval == Stable && r.completion == FreshRead
    ensures r.interval == Drifted || r.completion == Stale ==> r.decision == Deny
    ensures policy == RecordUnverified && Answers(p) && r.decision == Deny ==> r.interval == Drifted || r.completion == Stale
    ensures r.decision == Allow <==> Vouches(p, before, floor)
    ensures r.decision == Record <==> policy == RecordUnverified && LeavesOpen(p, before, floor)
    ensures Objects(p, before, floor) ==> r.decision == Deny
    ensures Judged(p, before, floor) ==> r.interval == p.overInterval.v.interval && r.completion == p.overInterval.v.completion
    ensures !Judged(p, before, floor) ==>
              r.interval == IntervalUnverifiable && r.completion == if TooEarly(p, before, floor) then Stale else CompletionUnverifiable
    ensures r.before == before && (Healthy(p.atCompletion) ==> r.after == p.atCompletion.v.observation)
    ensures r.after.Some? ==> p.atCompletion.Value? && r.after == p.atCompletion.v.observation && Readable(r.after.value)
  {
    if !p.atCompletion.Value? then Unavailable(before, None)
    else
      var after := p.atCompletion.v.observation;
      if after.Some? && !ValidObservation(after.value) then Unavailable(before, None)
      else if !p.atCompletion.v.healthy then Unavailable(before, after)
      else if before.None? || after.None? || !p.intervals then Unverifiable(policy, before, after)
      else if after.value.observedAt.value < floor then
        Receipt(IntervalUnverifiable, Stale, Deny, before, after)
      else if before.value.scope != after.value.scope then Unverifiable(policy, before, after)
      else if !p.overInterval.Value? then Unavailable(before, after)
      else
        var e := p.overInterval.v;
        if e.interval == IntervalInvalid || e.completion == CompletionInvalid || !e.explained then Unavailable(before, after)
        else Receipt(e.interval, e.completion, Judge(e, policy), before, after)
  }

  /**
   Under on_unverifiable=fail nothing is dispatched without a valid first observation, and what
   is then completed passes exactly if the provider vouches for the interval.
   */
  lemma FailPolicyIsStrict(p: Provider, floor: int)
    requires Begin(p, Some(FailUnverified)).Some?
    ensures var before := Begin(p, Some(FailUnverified)).value;
            && before.Some? && Readable(before.value) && p.intervals
            && Complete(p, before, FailUnverified, floor).decision in {Allow, Deny}
            && (Complete(p, before, FailUnverified, floor).decision != Deny <==> Vouches(p, before, floor))
  {
  }
}
