/**
 * The detected vials the client receives and the selection its search box
 * computes from them (app/static/app.js, the keyup handler).
 */
module Vials {
  import opened JsText

  /** How many matches the result list shows and the overlay marks. */
  const MAX_VIALS_NUM: nat := 10

  /** One entry of the server's "vials" array: [label, centerX, centerY, radius];
      `text` is the label read off the vial.
      The server sends the radius as an unsigned 16-bit integer, hence nat. */
  datatype Vial = Vial(text: string, cx: int, cy: int, r: nat)

  /** vialList.filter(v => v[0].includes(query)). */
  function Filter(vials: seq<Vial>, query: string): (r: seq<Vial>)
    ensures |r| <= |vials|
    ensures forall v :: v in r ==> v in vials && Includes(v.text, query)
  {
    if vials == [] then []
    else (if Includes(vials[0].text, query) then [vials[0]] else []) + Filter(vials[1..], query)
  }

  /** The selection the keyup handler assigns: empty when the trimmed box content is
      empty, otherwise the vials whose label includes the raw, untrimmed content. */
  function Select(vials: seq<Vial>, raw: string): (r: seq<Vial>)
    ensures |r| <= |vials|
    ensures Trim(raw) == [] ==> r == []
    ensures forall v :: v in r ==> v in vials && Includes(v.text, raw)
  {
    if Trim(raw) == [] then [] else Filter(vials, raw)
  }

  /** a is the subsequence of b at the strictly increasing positions idx. */
  ghost predicate IsSubsequenceVia<T>(a: seq<T>, b: seq<T>, idx: seq<nat>) {
    && |idx| == |a|
    && (forall k :: 0 <= k < |idx| ==> idx[k] < |b| && b[idx[k]] == a[k])
    && (forall k, l :: 0 <= k < l < |idx| ==> idx[k] < idx[l])
  }

  /** Every position moved one place to the right. */
  function Shift(idx: seq<nat>): (r: seq<nat>)
    ensures |r| == |idx|
    ensures forall k :: 0 <= k < |idx| ==> r[k] == idx[k] + 1
  {
    seq(|idx|, k requires 0 <= k < |idx| => idx[k] + 1)
  }

  /** The shifted positions are the positions after the first whose predecessor was listed. */
  lemma ShiftMembers(idx: seq<nat>, n: nat)
    ensures forall j :: 0 <= j < n ==> (j in Shift(idx) <==> j >= 1 && j - 1 in idx)
  {
    var s := Shift(idx);
    forall j | 0 <= j < n ensures j in s <==> j >= 1 && j - 1 in idx {
      if j >= 1 && j - 1 in idx {
        var k :| 0 <= k < |idx| && idx[k] == j - 1;
        assert s[k] == j;
      }
    }
  }

  /** A subsequence of the tail of b is a subsequence of b, one position further on. */
  lemma ShiftSubsequence<T>(a: seq<T>, b: seq<T>, idx: seq<nat>)
    requires b != [] && IsSubsequenceVia(a, b[1..], idx)
    ensures IsSubsequenceVia(a, b, Shift(idx))
  {
  }

  /** b's head followed by a subsequence of its tail is a subsequence of b. */
  lemma ConsSubsequence<T>(a: seq<T>, b: seq<T>, idx: seq<nat>)
    requires b != [] && IsSubsequenceVia(a, b[1..], idx)
    ensures IsSubsequenceVia([b[0]] + a, b, [0] + Shift(idx))
  {
    var a', s' := [b[0]] + a, [0] + Shift(idx);
    forall k | 0 <= k < |s'| ensures s'[k] < |b| && b[s'[k]] == a'[k] {
      if k > 0 {
        assert s'[k] == idx[k - 1] + 1 && a'[k] == a[k - 1];
      }
    }
  }

  /** Filter keeps exactly the vials whose label includes the query, at their
      original positions and in their original order. */
  lemma {:induction false} FilterPositions(vials: seq<Vial>, query: string) returns (idx: seq<nat>)
    ensures IsSubsequenceVia(Filter(vials, query), vials, idx)
    ensures forall j :: 0 <= j < |vials| ==> (j in idx <==> Includes(vials[j].text, query))
  {
    if vials == [] {
      idx := [];
    } else {
      var rest := FilterPositions(vials[1..], query);
      var tail := Filter(vials[1..], query);
      ShiftMembers(rest, |vials|);
      assert forall j :: 1 <= j < |vials| ==> vials[j] == vials[1..][j - 1];
      if Includes(vials[0].text, query) {
        ConsSubsequence(tail, vials, rest);
        idx := [0] + Shift(rest);
        assert Filter(vials, query) == [vials[0]] + tail;
      } else {
        ShiftSubsequence(tail, vials, rest);
        idx := Shift(rest);
        assert Filter(vials, query) == tail;
      }
    }
  }

  /** The selection is the order-preserving subsequence of the vial list made of the
      vials whose label includes the raw query, and it is empty when the trimmed
      query is. */
  lemma SelectPositions(vials: seq<Vial>, raw: string) returns (idx: seq<nat>)
    ensures IsSubsequenceVia(Select(vials, raw), vials, idx)
    ensures forall j :: 0 <= j < |vials| ==>
      (j in idx <==> Trim(raw) != [] && Includes(vials[j].text, raw))
  {
    if Trim(raw) == [] {
      idx := [];
    } else {
      idx := FilterPositions(vials, raw);
    }
  }

  /** When every label matches, the filter keeps the whole list. */
  lemma {:induction false} FilterAllMatch(vials: seq<Vial>, query: string)
    requires forall j :: 0 <= j < |vials| ==> Includes(vials[j].text, query)
    ensures Filter(vials, query) == vials
  {
    if vials != [] {
      FilterAllMatch(vials[1..], query);
    }
  }

  /** The selection is empty exactly when the trimmed query is empty or no label
      includes the raw query. */
  lemma SelectEmptyIff(vials: seq<Vial>, raw: string)
    ensures Select(vials, raw) == [] <==>
      Trim(raw) == [] || forall j :: 0 <= j < |vials| ==> !Includes(vials[j].text, raw)
  {
    var idx := SelectPositions(vials, raw);
    if Select(vials, raw) == [] {
      assert idx == [];
    } else {
      assert idx[0] in idx;
    }
  }

  /** A query with a leading space is not empty once trimmed, yet it is matched
      untrimmed: " A" selects nothing from labels "A1" and "B2". */
  lemma LeadingSpaceQuery()
    ensures Trim(" A") == "A"
    ensures Includes("A1", "A")
    ensures Select([Vial("A1", 100, 100, 20), Vial("B2", 300, 100, 25)], " A") == []
  {
    assert TrimStart("A") == "A";
    assert TrimStart(" A") == "A";
    assert TrimEnd("A") == "A";
    var q := " A";
    assert !Includes("A1", q) by {
      assert "A1"[..2] != q;
      assert !Includes("1", q);
    }
    assert !Includes("B2", q) by {
      assert "B2"[..2] != q;
      assert !Includes("2", q);
    }
  }

  /** The label facts SingleMatchQuery rests on. */
  lemma SingleMatchLabels()
    ensures Trim("A") == "A" && Includes("A1", "A") && !Includes("B2", "A")
  {
    assert TrimStart("A") == "A";
    assert TrimEnd("A") == "A";
    assert "A1"[..1] == "A";
    assert "B2"[..1][0] == 'B' != "A"[0];
    assert "2"[..1][0] == '2' != "A"[0];
    assert "2"[1..] == [];
    assert !Includes("2", "A");
    assert "B2"[1..] == "2";
  }

  /** Two vials, query "A": only "A1" is selected. */
  lemma SingleMatchQuery()
    ensures Select([Vial("A1", 100, 100, 20), Vial("B2", 300, 100, 25)], "A") == [Vial("A1", 100, 100, 20)]
  {
    var a1, b2 := Vial("A1", 100, 100, 20), Vial("B2", 300, 100, 25);
    SingleMatchLabels();
    assert [b2][1..] == [];
    assert [a1, b2][1..] == [b2];
  }
}
