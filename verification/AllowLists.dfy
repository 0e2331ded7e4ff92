/** The list handling of route provisioning: dedup and the merging of extra consumers
    into an allow-list. */
module AllowLists {
  import opened Common

  /** The non-empty strings of ss without repeats, in order of first occurrence. */
  function Dedup(ss: seq<string>): seq<string> {
    if ss == [] then []
    else
      var front := Dedup(ss[..|ss| - 1]);
      var s := ss[|ss| - 1];
      if s == "" || s in front then front else front + [s]
  }

  function NonEmpty(ss: seq<string>): seq<string> {
    if ss == [] then []
    else if ss[0] == "" then NonEmpty(ss[1..])
    else [ss[0]] + NonEmpty(ss[1..])
  }

  /** Appends each extra that the list does not hold yet. */
  function WithExtras(allowed: seq<string>, extras: seq<string>): seq<string>
    decreases |extras|
  {
    if extras == [] then allowed
    else WithExtras(if extras[0] in allowed then allowed else allowed + [extras[0]], extras[1..])
  }

  /** Where x first occurs. */
  function First(ss: seq<string>, x: string): (i: nat)
    requires x in ss
    ensures i < |ss| && ss[i] == x && x !in ss[..i]
  {
    var front := ss[..|ss| - 1];
    if x in front then
      assert front[..First(front, x)] == ss[..First(front, x)];
      First(front, x)
    else |ss| - 1
  }

  /** Deduplication drops nothing but empties and repeats, and keeps the order of first
      occurrence. */
  lemma {:induction false} DedupKeepsMembers(ss: seq<string>)
    ensures forall x :: x in Dedup(ss) <==> x in ss && x != ""
    ensures forall i, j :: 0 <= i < j < |Dedup(ss)| ==>
              Dedup(ss)[i] in ss && Dedup(ss)[j] in ss && First(ss, Dedup(ss)[i]) < First(ss, Dedup(ss)[j])
  {
    if ss != [] {
      var front, s := ss[..|ss| - 1], ss[|ss| - 1];
      DedupKeepsMembers(front);
      assert ss == front + [s];
      assert forall x :: x in front ==> First(ss, x) == First(front, x);
    }
  }

  lemma {:induction false} NonEmptyMembers(ss: seq<string>)
    ensures forall x :: x in NonEmpty(ss) <==> x in ss && x != ""
  {
    if ss != [] {
      NonEmptyMembers(ss[1..]);
    }
  }

  lemma {:induction false} WithExtrasMembers(allowed: seq<string>, extras: seq<string>)
    ensures forall x :: x in WithExtras(allowed, extras) <==> x in allowed || x in extras
    decreases |extras|
  {
    if extras != [] {
      WithExtrasMembers(if extras[0] in allowed then allowed else allowed + [extras[0]], extras[1..]);
    }
  }

  /** Neither lists anything twice. */
  lemma DedupIsDistinct(ss: seq<string>)
    ensures Distinct(Dedup(ss))
  {
    DedupKeepsMembers(ss);
    var once := Dedup(ss);
    forall i, j | 0 <= i < j < |once| ensures once[i] != once[j] {
      assert First(ss, once[i]) < First(ss, once[j]);
    }
  }

  lemma {:induction false} WithExtrasIsDistinct(allowed: seq<string>, extras: seq<string>)
    requires Distinct(allowed)
    ensures Distinct(WithExtras(allowed, extras))
    decreases |extras|
  {
    if extras != [] {
      WithExtrasIsDistinct(if extras[0] in allowed then allowed else allowed + [extras[0]], extras[1..]);
    }
  }

  method DedupStrings(ss: seq<string>) returns (out: seq<string>)
    ensures out == Dedup(ss)
  {
    var seen: set<string> := {};
    out := [];
    assert ss[..0] == [];
    for i := 0 to |ss|
      invariant out == Dedup(ss[..i])
      invariant forall x :: x in seen <==> x in out
    {
      assert ss[..i + 1][..i] == ss[..i];
      var s := ss[i];
      if s != "" && s !in seen {
        seen := seen + {s};
        out := out + [s];
      }
    }
    assert ss[..|ss|] == ss;
  }

  method AppendNonEmpty(list: seq<string>, extras: seq<string>) returns (allowed: seq<string>)
    ensures allowed == list + NonEmpty(extras)
  {
    allowed := list;
    for i := 0 to |extras|
      invariant allowed + NonEmpty(extras[i..]) == list + NonEmpty(extras)
    {
      assert extras[i..][1..] == extras[i + 1..];
      if extras[i] != "" {
        allowed := allowed + [extras[i]];
      }
    }
  }

  method AppendMissing(list: seq<string>, extras: seq<string>) returns (allowed: seq<string>)
    ensures allowed == WithExtras(list, extras)
  {
    allowed := list;
    for i := 0 to |extras|
      invariant WithExtras(allowed, extras[i..]) == WithExtras(list, extras)
    {
      assert extras[i..][1..] == extras[i + 1..];
      var present := false;
      for j := 0 to |allowed|
        invariant present <==> extras[i] in allowed[..j]
      {
        if allowed[j] == extras[i] {
          present := true;
          assert allowed[j] in allowed;
          break;
        }
      }
      assert allowed[..|allowed|] == allowed;
      if !present {
        allowed := allowed + [extras[i]];
      }
    }
  }
}
