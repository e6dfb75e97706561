/** The part of the transport contract the engine relies on: which sub-operations a
    transport has accepted and not yet reported. It accepts a sub-operation it does not
    already hold, and reports only what it holds, which it then no longer holds. */
module Provider {
  datatype Link<!K(==)> = Link(outstanding: set<K>)

  predicate CanAccept<K>(l: Link<K>, k: K) {
    k !in l.outstanding
  }

  function Accept<K>(l: Link<K>, k: K): Link<K> {
    Link(l.outstanding + {k})
  }

  predicate CanReport<K>(l: Link<K>, k: K) {
    k in l.outstanding
  }

  function Report<K>(l: Link<K>, k: K): Link<K> {
    Link(l.outstanding - {k})
  }

  ghost predicate CanAcceptAll<K(!new)>(l: Link<K>, ks: seq<K>)
    decreases |ks|
  {
    ks == [] || (CanAccept(l, ks[0]) && CanAcceptAll(Accept(l, ks[0]), ks[1..]))
  }

  ghost function AcceptAll<K>(l: Link<K>, ks: seq<K>): Link<K>
    decreases |ks|
  {
    if ks == [] then l else AcceptAll(Accept(l, ks[0]), ks[1..])
  }

  ghost predicate CanReportAll<K(!new)>(l: Link<K>, ks: seq<K>)
    decreases |ks|
  {
    ks == [] || (CanReport(l, ks[0]) && CanReportAll(Report(l, ks[0]), ks[1..]))
  }

  ghost function ReportAll<K>(l: Link<K>, ks: seq<K>): Link<K>
    decreases |ks|
  {
    if ks == [] then l else ReportAll(Report(l, ks[0]), ks[1..])
  }

  ghost predicate Distinct<K(!new)>(ks: seq<K>) {
    forall i, j :: 0 <= i < j < |ks| ==> ks[i] != ks[j]
  }

  ghost function Members<K>(ks: seq<K>): set<K> {
    set k | k in ks
  }

  /** A batch can be accepted exactly if its members are distinct and none is held. */
  lemma {:induction false} AcceptAllIs<K(!new)>(l: Link<K>, ks: seq<K>)
    ensures CanAcceptAll(l, ks) <==> Distinct(ks) && Members(ks) !! l.outstanding
    ensures AcceptAll(l, ks).outstanding == l.outstanding + Members(ks)
    decreases |ks|
  {
    if ks != [] {
      AcceptAllIs(Accept(l, ks[0]), ks[1..]);
      HeadAndTail(ks);
    }
  }

  /** A run of reports is possible exactly if they are distinct and all held. */
  lemma {:induction false} ReportAllIs<K(!new)>(l: Link<K>, ks: seq<K>)
    ensures CanReportAll(l, ks) <==> Distinct(ks) && Members(ks) <= l.outstanding
    ensures ReportAll(l, ks).outstanding == l.outstanding - Members(ks)
    decreases |ks|
  {
    if ks != [] {
      ReportAllIs(Report(l, ks[0]), ks[1..]);
      HeadAndTail(ks);
    }
  }

  lemma HeadAndTail<K(!new)>(ks: seq<K>)
    requires ks != []
    ensures Members(ks) == {ks[0]} + Members(ks[1..])
    ensures Distinct(ks) <==> Distinct(ks[1..]) && ks[0] !in Members(ks[1..])
  {
    assert ks == [ks[0]] + ks[1..];
    if Distinct(ks[1..]) && ks[0] !in Members(ks[1..]) {
      forall i, j | 0 <= i < j < |ks| ensures ks[i] != ks[j] {
        assert ks[j] == ks[1..][j - 1];
        assert i > 0 ==> ks[i] == ks[1..][i - 1];
        assert ks[j] in ks[1..];
      }
    }
    if Distinct(ks) {
      forall i, j | 0 <= i < j < |ks[1..]| ensures ks[1..][i] != ks[1..][j] {
        assert ks[i + 1] != ks[j + 1];
      }
    }
  }
}
