/** Ordered guard chains. Several core validators are a fixed list of
    `if (bad) throw new Error(msg)` statements in which the first failing guard
    decides the error. A chain is described here as data, so that "the first
    failure wins" can be stated once and each validator shown to follow its list. */
module Guards {

  import opened JsonValue

  /** One guard of a chain: whether the input passes it, and the message thrown
      when it does not. */
  datatype Guard = Guard(passes: bool, message: string)

  /** The index of the first guard that fails, if any. */
  function FirstFailure(gs: seq<Guard>): (r: Option<nat>)
    ensures r.None? <==> forall i :: 0 <= i < |gs| ==> gs[i].passes
    ensures r.Some? ==> r.value < |gs| && !gs[r.value].passes
    ensures r.Some? ==> forall i :: 0 <= i < r.value ==> gs[i].passes
    decreases |gs|
  {
    if gs == [] then None
    else if !gs[0].passes then Some(0)
    else
      match FirstFailure(gs[1..])
      case None => None
      case Some(k) => Some(k + 1)
  }

  /** What a chain reports: nothing when every guard passes, otherwise the message of
      the first failing guard. */
  function ChainError(gs: seq<Guard>): (r: Option<string>)
    ensures r.None? <==> forall i :: 0 <= i < |gs| ==> gs[i].passes
    ensures r.Some? ==> exists k :: 0 <= k < |gs| && !gs[k].passes && r.value == gs[k].message
                                   && forall i :: 0 <= i < k ==> gs[i].passes
  {
    match FirstFailure(gs)
    case None => None
    case Some(k) => Some(gs[k].message)
  }

  /** The first failing guard is unique: if guard k fails and all before it pass,
      the chain reports guard k's message, whatever the guards after it say. */
  lemma {:induction false} ChainErrorAt(gs: seq<Guard>, k: nat)
    requires k < |gs| && !gs[k].passes
    requires forall i :: 0 <= i < k ==> gs[i].passes
    ensures FirstFailure(gs) == Some(k)
    ensures ChainError(gs) == Some(gs[k].message)
  {
  }
}
