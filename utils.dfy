/** `fix_number_format` of `utils.py`: one `re.sub` with the pattern
    `(\d{1,3}),(\d{3}\.\d+)` and the replacement `\1\2`, which drops the
    thousands comma of numbers such as `41,976.050`. The substitution is
    modelled as the regex engine runs it: leftmost matches, scanned from left
    to right, never overlapping. */
module Utils {
  import opened Common

  /** How many digits follow from position `i` on. */
  function DigitRun(s: string, i: nat): (n: nat)
    requires i <= |s|
    ensures i + n <= |s|
    ensures forall k :: i <= k < i + n ==> IsDigit(s[k])
    ensures i + n < |s| ==> !IsDigit(s[i + n])
    decreases |s| - i
  {
    if i < |s| && IsDigit(s[i]) then 1 + DigitRun(s, i + 1) else 0
  }

  /** The match that starts at `p`, if any, as the position of its comma and
      the position after it. `\d{1,3}` takes up to three digits greedily and
      must be followed by the comma: shorter tries are followed by a digit,
      so a run of more than three digits cannot match here. `\d+` takes every
      digit after the point. */
  function MatchAt(s: string, p: nat): (m: Option<(nat, nat)>)
    requires p <= |s|
    ensures m.Some? ==> p < m.value.0 < m.value.1 <= |s|
  {
    var c := p + DigitRun(s, p);
    if 1 <= c - p <= 3 && c + 5 < |s| && s[c] == ',' && IsDigit(s[c + 1]) && IsDigit(s[c + 2])
      && IsDigit(s[c + 3]) && s[c + 4] == '.' && IsDigit(s[c + 5])
    then Some((c, c + 5 + DigitRun(s, c + 5)))
    else None
  }

  /** `re.sub` from position `p` on: a match is replaced by its two groups,
      that is, it loses its comma, and the scan goes on after it; elsewhere
      one character is kept and the scan moves one position on. */
  function SubFrom(s: string, p: nat): string
    requires p <= |s|
    decreases |s| - p
  {
    if p == |s| then ""
    else
      match MatchAt(s, p)
      case Some((c, e)) => s[p..c] + s[c + 1..e] + SubFrom(s, e)
      case None => [s[p]] + SubFrom(s, p + 1)
  }

  /** `fix_number_format(text)`. */
  function FixNumberFormat(text: string): string
  {
    SubFrom(text, 0)
  }

  /** The commas the scan from `p` removes. */
  function RemovedFrom(s: string, p: nat): set<nat>
    requires p <= |s|
    decreases |s| - p
  {
    if p == |s| then {}
    else
      match MatchAt(s, p)
      case Some((c, e)) => {c} + RemovedFrom(s, e)
      case None => RemovedFrom(s, p + 1)
  }

  function Removed(s: string): set<nat>
  {
    RemovedFrom(s, 0)
  }

  /** The text from `p` on without the positions in `r`. */
  function KeepFrom(s: string, p: nat, r: set<nat>): string
    requires p <= |s|
    decreases |s| - p
  {
    if p == |s| then "" else (if p in r then "" else [s[p]]) + KeepFrom(s, p + 1, r)
  }

  /** A comma the pattern can remove: a digit before it, and after it three
      digits, a point and at least one digit. */
  predicate Candidate(s: string, c: int)
  {
    1 <= c && c + 5 < |s| && s[c] == ',' && IsDigit(s[c - 1]) && IsDigit(s[c + 1]) && IsDigit(s[c + 2])
    && IsDigit(s[c + 3]) && s[c + 4] == '.' && IsDigit(s[c + 5])
  }

  /** A comma whose preceding digits are the decimals of the match of the
      removed comma `c'`: that match already took them. */
  predicate Blocked(s: string, c': nat, c: nat)
  {
    c' + 5 < c <= |s| && AllDigits(s[c' + 5..c])
  }

  /** The positions the scan from `p` removes lie after `p` and hold
      candidate commas. */
  lemma {:induction false} RemovedCandidates(s: string, p: nat)
    requires p <= |s|
    ensures forall c :: c in RemovedFrom(s, p) ==> p < c < |s| && Candidate(s, c)
    decreases |s| - p
  {
    if p < |s| {
      match MatchAt(s, p)
      case Some((c, e)) =>
        RemovedCandidates(s, e);
        assert IsDigit(s[c - 1]);
      case None =>
        RemovedCandidates(s, p + 1);
    }
  }

  /** The text the scan leaves is the rest of the text without the removed
      positions. */
  lemma {:induction false} SubFromKeeps(s: string, p: nat)
    requires p <= |s|
    ensures SubFrom(s, p) == KeepFrom(s, p, RemovedFrom(s, p))
    decreases |s| - p
  {
    if p < |s| {
      match MatchAt(s, p)
      case Some((c, e)) =>
        SubFromKeeps(s, e);
        KeepMatch(s, p, c, e);
      case None =>
        SubFromKeeps(s, p + 1);
        assert p !in RemovedFrom(s, p + 1) by {
          RemovedCandidates(s, p + 1);
        }
    }
  }

  /** One match: the text kept from its start is the match without its comma
      followed by the text kept after it. */
  lemma KeepMatch(s: string, p: nat, c: nat, e: nat)
    requires p < |s| && MatchAt(s, p) == Some((c, e))
    ensures KeepFrom(s, p, RemovedFrom(s, p)) == s[p..c] + s[c + 1..e] + KeepFrom(s, e, RemovedFrom(s, e))
  {
    SubFromMatch(s, p, c, e);
    var rest := RemovedFrom(s, e);
    var all := {c} + rest;
    assert forall k :: e <= k < |s| ==> (k in rest <==> k in all) by {
      RemovedCandidates(s, e);
    }
    KeepIgnores(s, e, rest, all);
    assert KeepFrom(s, c + 1, all) == s[c + 1..e] + KeepFrom(s, e, all) by {
      RemovedCandidates(s, e);
      KeepRange(s, c + 1, e, all);
    }
    assert KeepFrom(s, p, all) == s[p..c] + KeepFrom(s, c, all) by {
      RemovedCandidates(s, e);
      KeepRange(s, p, c, all);
    }
    assert KeepFrom(s, c, all) == KeepFrom(s, c + 1, all);
    JoinPieces(KeepFrom(s, p, all), KeepFrom(s, c, all), KeepFrom(s, c + 1, all),
      KeepFrom(s, e, all), KeepFrom(s, e, rest), s[p..c], s[c + 1..e]);
  }

  /** Chaining three equations between concatenations. */
  lemma JoinPieces<T>(k0: seq<T>, k1: seq<T>, k1': seq<T>, k2: seq<T>, k2': seq<T>, a: seq<T>, b: seq<T>)
    requires k0 == a + k1 && k1 == k1' && k1' == b + k2 && k2 == k2'
    ensures k0 == a + b + k2'
  {
  }

  /** The scan over a match at `p`. */
  lemma SubFromMatch(s: string, p: nat, c: nat, e: nat)
    requires p < |s| && MatchAt(s, p) == Some((c, e))
    ensures SubFrom(s, p) == s[p..c] + s[c + 1..e] + SubFrom(s, e)
    ensures RemovedFrom(s, p) == {c} + RemovedFrom(s, e)
  {
  }

  /** The scan at a position where no match starts. */
  lemma SubFromNoMatch(s: string, p: nat)
    requires p < |s| && MatchAt(s, p).None?
    ensures SubFrom(s, p) == [s[p]] + SubFrom(s, p + 1)
    ensures RemovedFrom(s, p) == RemovedFrom(s, p + 1)
  {
  }

  /** The text the scan leaves is shorter by the number of removed commas. */
  lemma {:induction false} SubFromLength(s: string, p: nat)
    requires p <= |s|
    ensures |SubFrom(s, p)| == |s| - p - |RemovedFrom(s, p)|
    decreases |s| - p
  {
    if p < |s| {
      var m := MatchAt(s, p);
      if m.Some? {
        SubFromLength(s, m.value.1);
        MatchLength(s, p, m.value.0, m.value.1);
      } else {
        SubFromLength(s, p + 1);
        SubFromNoMatch(s, p);
      }
    }
  }

  /** A match removes one comma and keeps the rest of its text. */
  lemma MatchLength(s: string, p: nat, c: nat, e: nat)
    requires p < |s| && MatchAt(s, p) == Some((c, e))
    requires |SubFrom(s, e)| == |s| - e - |RemovedFrom(s, e)|
    ensures |SubFrom(s, p)| == |s| - p - |RemovedFrom(s, p)|
  {
    SubFromMatch(s, p, c, e);
    assert |RemovedFrom(s, p)| == 1 + |RemovedFrom(s, e)| by {
      RemovedCandidates(s, e);
      assert {c} * RemovedFrom(s, e) == {};
    }
  }

  /** Positions outside `r` before `q` are kept as they are. */
  lemma {:induction false} KeepRange(s: string, p: nat, q: nat, r: set<nat>)
    requires p <= q <= |s|
    requires forall k :: p <= k < q ==> k !in r
    ensures KeepFrom(s, p, r) == s[p..q] + KeepFrom(s, q, r)
    decreases q - p
  {
    if p < q {
      KeepRange(s, p + 1, q, r);
      calc {
        KeepFrom(s, p, r);
        [s[p]] + KeepFrom(s, p + 1, r);
        [s[p]] + (s[p + 1..q] + KeepFrom(s, q, r));
        ([s[p]] + s[p + 1..q]) + KeepFrom(s, q, r);
        { assert [s[p]] + s[p + 1..q] == s[p..q]; }
        s[p..q] + KeepFrom(s, q, r);
      }
    }
  }

  /** Positions before `p` do not matter to the text kept from `p` on. */
  lemma {:induction false} KeepIgnores(s: string, p: nat, r: set<nat>, r': set<nat>)
    requires p <= |s|
    requires forall k :: p <= k < |s| ==> (k in r <==> k in r')
    ensures KeepFrom(s, p, r) == KeepFrom(s, p, r')
    decreases |s| - p
  {
    if p < |s| {
      KeepIgnores(s, p + 1, r, r');
    }
  }

  /** Two removed commas: the later one is not among the decimals of the
      earlier one's match. */
  lemma {:induction false} RemovedApart(s: string, p: nat, c': nat, c: nat)
    requires p <= |s|
    requires c' in RemovedFrom(s, p) && c in RemovedFrom(s, p) && c' < c
    ensures !Blocked(s, c', c)
    decreases |s| - p
  {
    RemovedCandidates(s, p);
    match MatchAt(s, p)
    case Some((c0, e)) =>
      RemovedCandidates(s, e);
      if c' == c0 {
        assert e < c;
        assert s[e] == s[c' + 5..c][e - (c' + 5)];
      } else {
        RemovedApart(s, e, c', c);
      }
    case None =>
      RemovedApart(s, p + 1, c', c);
  }

  /** A candidate comma after the scan position `p` is removed unless it is
      blocked by a comma removed before it. */
  lemma {:induction false} CandidateRemoved(s: string, p: nat, c: nat)
    requires p < c && Candidate(s, c)
    ensures c in RemovedFrom(s, p) || exists c' :: c' in RemovedFrom(s, p) && Blocked(s, c', c)
    decreases |s| - p
  {
    match MatchAt(s, p)
    case Some((c0, e)) =>
      if c0 != c {
        assert c0 < c;
        if e == c {
          assert Blocked(s, c0, c);
        } else {
          assert e < c;
          CandidateRemoved(s, e, c);
          if c !in RemovedFrom(s, e) {
            var c' :| c' in RemovedFrom(s, e) && Blocked(s, c', c);
            assert c' in RemovedFrom(s, p);
          }
        }
      }
    case None =>
      assert p + 1 < c by {
        assert DigitRun(s, c - 1) >= 1;
      }
      CandidateRemoved(s, p + 1, c);
  }

  /** What `fix_number_format` does, stated without the scan: it deletes
      exactly the candidate commas that the decimals of no earlier removed
      comma reach, keeps every other character in order, and so shortens the
      text by the number of commas it removes. */
  lemma FixNumberFormatSpec(s: string)
    ensures FixNumberFormat(s) == KeepFrom(s, 0, Removed(s))
    ensures forall c :: c in Removed(s) ==> c < |s| && s[c] == ','
    ensures forall c: nat :: c in Removed(s) <==>
      Candidate(s, c) && !exists c' :: c' in Removed(s) && Blocked(s, c', c)
    ensures |FixNumberFormat(s)| == |s| - |Removed(s)|
  {
    SubFromKeeps(s, 0);
    SubFromLength(s, 0);
    RemovedCandidates(s, 0);
    forall c: nat
      ensures c in Removed(s) <==> Candidate(s, c) && !exists c' :: c' in Removed(s) && Blocked(s, c', c)
    {
      if c in Removed(s) {
        forall c' | c' in Removed(s)
          ensures !Blocked(s, c', c)
        {
          if c' < c {
            RemovedApart(s, 0, c', c);
          }
        }
      } else if Candidate(s, c) {
        CandidateRemoved(s, 0, c);
      }
    }
  }

  /** Text without a candidate comma, in particular text without commas,
      comes back unchanged. */
  lemma NoCandidateUnchanged(s: string)
    requires forall c :: 0 <= c < |s| ==> !Candidate(s, c)
    ensures FixNumberFormat(s) == s
  {
    RemovedCandidates(s, 0);
    SubFromKeeps(s, 0);
    assert Removed(s) == {};
    KeepRange(s, 0, |s|, {});
  }

  /** The example of the source: the thousands comma goes. */
  lemma ThousandsExample()
    ensures FixNumberFormat("41,976.050") == "41976.050"
  {
    var s := "41,976.050";
    assert MatchAt(s, 0) == Some((2, 10)) by {
      assert DigitRun(s, 0) == 2;
      assert DigitRun(s, 7) == 3;
    }
    assert s[0..2] + s[3..10] == "41976.050";
  }

  /** A comma not followed by three digits and a point stays. */
  lemma UnitExample()
    ensures FixNumberFormat("1,000 kg") == "1,000 kg"
  {
    var s := "1,000 kg";
    assert forall c :: 0 <= c < |s| ==> !Candidate(s, c);
    NoCandidateUnchanged(s);
  }
}
