/** Byte budgets per direction: the controllers without a limit and with a fixed window. */
module Congestion {
  datatype Direction = WriteDir | ReadDir

  /** No limit, or a window that is the same for both directions. */
  datatype Limit = Unlimited | Window(bytes: nat)

  datatype Budget = Budget(limit: Limit, write: nat, read: nat)

  function Used(b: Budget, d: Direction): nat {
    match d
    case WriteDir => b.write
    case ReadDir => b.read
  }

  function SetUsed(b: Budget, d: Direction, n: nat): (r: Budget)
    ensures Used(r, d) == n && r.limit == b.limit
    ensures forall d' :: d' != d ==> Used(r, d') == Used(b, d')
  {
    match d
    case WriteDir => b.(write := n)
    case ReadDir => b.(read := n)
  }

  predicate Allows(b: Budget, d: Direction, bytes: nat) {
    b.limit.Unlimited?
    || Used(b, d) + bytes <= b.limit.bytes
    // What would never fit goes out by itself.
    || (bytes > b.limit.bytes && Used(b, d) == 0)
  }

  function Claim(b: Budget, d: Direction, bytes: nat): Budget {
    SetUsed(b, d, Used(b, d) + bytes)
  }

  /** Never below zero, however much is given back. */
  function Release(b: Budget, d: Direction, bytes: nat): Budget {
    SetUsed(b, d, Used(b, d) - (if bytes < Used(b, d) then bytes else Used(b, d)))
  }

  /** The controller object behind the provider. on_feedback and on_error release alike. */
  class WindowController {
    const limit: Limit
    var inflightWrite: nat
    var inflightRead: nat

    ghost function View(): Budget
      reads this
    {
      Budget(limit, inflightWrite, inflightRead)
    }

    constructor (limit: Limit)
      ensures View() == Budget(limit, 0, 0)
    {
      this.limit := limit;
      inflightWrite, inflightRead := 0, 0;
    }

    method Allow(d: Direction, bytes: nat) returns (ok: bool)
      ensures ok == Allows(View(), d, bytes)
    {
      var used := if d.WriteDir? then inflightWrite else inflightRead;
      match limit
      case Unlimited => ok := true;
      case Window(w) =>
        if used + bytes <= w { return true; }
        if bytes > w && used == 0 { return true; }
        ok := false;
    }

    method OnPost(d: Direction, bytes: nat)
      modifies this
      ensures View() == Claim(old(View()), d, bytes)
    {
      if d.WriteDir? { inflightWrite := inflightWrite + bytes; } else { inflightRead := inflightRead + bytes; }
    }

    method OnRelease(d: Direction, bytes: nat)
      modifies this
      ensures View() == Release(old(View()), d, bytes)
    {
      if d.WriteDir? {
        inflightWrite := inflightWrite - (if bytes < inflightWrite then bytes else inflightWrite);
      } else {
        inflightRead := inflightRead - (if bytes < inflightRead then bytes else inflightRead);
      }
    }
  }

  // ---------------- what is outstanding ----------------

  /** The bytes of the claims still outstanding. */
  function Sum(s: seq<nat>): nat {
    if s == [] then 0 else Sum(s[..|s| - 1]) + s[|s| - 1]
  }

  lemma {:induction false} SumRemove(s: seq<nat>, i: nat)
    requires i < |s|
    ensures Sum(s) == Sum(s[..i] + s[i + 1..]) + s[i]
    decreases |s|
  {
    if i == |s| - 1 {
      assert s[..i] + s[i + 1..] == s[..|s| - 1];
    } else {
      var t := s[..|s| - 1];
      SumRemove(t, i);
      var r := s[..i] + s[i + 1..];
      assert r[..|r| - 1] == t[..i] + t[i + 1..];
    }
  }

  lemma SumAppend(s: seq<nat>, n: nat)
    ensures Sum(s + [n]) == Sum(s) + n
  {
    assert (s + [n])[..|s|] == s;
  }
}
