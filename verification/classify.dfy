/**
 * The classification of one status response (anti_affinity.py:299-316):
 * active, capacity exhausted ("No valid host" in the fault message), some
 * other fault, or a fault that cannot be read (subscripting the empty
 * string, or a fault without a message, raises).
 */
module Classify {
  import opened Cloud

  /** The text the provider puts in the fault of a server no host can take. */
  const NO_VALID_HOST: string := "No valid host"

  /** `{"active": ..., "fault": ...}`; `NoFault` stands for the empty string. */
  datatype StatusResponse = StatusResponse(active: bool, fault: FaultAttr)

  datatype Verdict =
    | Active          // record the server, stop trying regions for this target
    | NoValidHost     // mark the region full, delete the server
    | OtherFault      // log only
    | FaultUnreadable // reading the message raised; absorbed and logged

  /** The fault's message holds the capacity-exhaustion text. */
  ghost predicate SaysNoValidHost(f: FaultAttr) {
    f.FaultDict? && f.message.Some? && Occurs(NO_VALID_HOST, f.message.value)
  }

  /** Reading `fault["message"]` raises: the fault is the empty string or has no message. */
  predicate Unreadable(f: FaultAttr) {
    f.NoFault? || f.message.None?
  }

  /** `p` occurs in `s` at some offset: the meaning of Python's `p in s`. */
  ghost predicate Occurs(p: string, s: string) {
    exists i :: 0 <= i && OccursAt(p, s, i)
  }

  ghost predicate OccursAt(p: string, s: string, i: nat) {
    i + |p| <= |s| && s[i..i + |p|] == p
  }

  /** Substring search, left to right. */
  function Contains(s: string, p: string): bool
    decreases |s|
  {
    if |s| < |p| then false
    else s[..|p|] == p || Contains(s[1..], p)
  }

  lemma {:induction false} ContainsIsOccurs(s: string, p: string)
    ensures Contains(s, p) <==> Occurs(p, s)
    decreases |s|
  {
    if |s| < |p| {
    } else if s[..|p|] == p {
      assert OccursAt(p, s, 0);
    } else {
      ContainsIsOccurs(s[1..], p);
      if Occurs(p, s) {
        var i: nat :| OccursAt(p, s, i);
        assert i != 0;
        assert s[1..][i - 1..i - 1 + |p|] == s[i..i + |p|];
        assert OccursAt(p, s[1..], i - 1);
      }
      if Occurs(p, s[1..]) {
        var i: nat :| OccursAt(p, s[1..], i);
        assert i + |p| <= |s[1..]|;
        assert s[i + 1..i + 1 + |p|] == s[1..][i..i + |p|];
        assert OccursAt(p, s, i + 1);
      }
    }
  }

  /** The branch do_create takes on a status response. */
  function ClassifyResponse(resp: StatusResponse): (v: Verdict)
    ensures v == Active <==> resp.active
    ensures v == NoValidHost <==> !resp.active && SaysNoValidHost(resp.fault)
    ensures v == FaultUnreadable <==> !resp.active && Unreadable(resp.fault)
  {
    if resp.active then Active
    else match resp.fault
      case NoFault => FaultUnreadable
      case FaultDict(None) => FaultUnreadable
      case FaultDict(Some(m)) =>
        ContainsIsOccurs(m, NO_VALID_HOST);
        if Contains(m, NO_VALID_HOST) then NoValidHost else OtherFault
  }
}
