// Small shared vocabulary: optional values, outcomes, times, non-blank text and
// order-preserving de-duplication.
module Base {

  datatype Option<+T> = None | Some(value: T)

  datatype Result<+T, +E> = Ok(value: T) | Err(error: E)

  // Clock readings in seconds; rounding of floating-point clocks is not modelled.
  type Time = real

  predicate IsSpace(c: char) {
    c == ' ' || c == '\t' || c == '\n' || c == '\r'
  }

  // Text that survives stripping.
  predicate NonBlank(s: string) {
    exists i :: 0 <= i < |s| && !IsSpace(s[i])
  }

  predicate AllNonBlank(items: seq<string>) {
    forall s :: s in items ==> NonBlank(s)
  }

  predicate OptionNonBlank(s: Option<string>) {
    s.Some? ==> NonBlank(s.value)
  }

  // Keeps the first occurrence of every element, in order.
  function Dedup<T(==,!new)>(items: seq<T>): (r: seq<T>)
    ensures forall x :: x in r <==> x in items
    ensures forall i, j :: 0 <= i < j < |r| ==> r[i] != r[j]
  {
    if items == [] then []
    else
      var prefix := Dedup(items[..|items| - 1]);
      var last := items[|items| - 1];
      assert items == items[..|items| - 1] + [last];
      if last in prefix then prefix else prefix + [last]
  }

  // Where an element first occurs.
  function FirstAt<T(==)>(items: seq<T>, x: T): (i: nat)
    requires x in items
    ensures i < |items| && items[i] == x && x !in items[..i]
  {
    if items[0] == x then 0 else 1 + FirstAt(items[1..], x)
  }

  // The same elements, each once, in the order of their first occurrences.
  ghost predicate InOrder<T(!new)>(items: seq<T>, r: seq<T>) {
    && (forall x :: x in r <==> x in items)
    && (forall i, j :: 0 <= i < j < |r| ==> r[i] != r[j])
    && (forall i, j :: 0 <= i < j < |r| && r[i] in items && r[j] in items ==> FirstAt(items, r[i]) < FirstAt(items, r[j]))
  }

  lemma {:induction false} FirstAtAppend<T(!new)>(items: seq<T>, last: T, x: T)
    requires x in items
    ensures FirstAt(items + [last], x) == FirstAt(items, x)
  {
    if items[0] != x {
      FirstAtAppend(items[1..], last, x);
      assert (items + [last])[1..] == items[1..] + [last];
    }
  }

  // Elements of another sequence, in its order.
  ghost predicate Follows<T(!new)>(part: seq<T>, whole: seq<T>) {
    && (forall x :: x in part ==> x in whole)
    && (forall i, j :: 0 <= i < j < |part| && part[i] in whole && part[j] in whole ==> FirstAt(whole, part[i]) < FirstAt(whole, part[j]))
  }

  lemma FollowsAppend<T(!new)>(part: seq<T>, whole: seq<T>, last: T)
    requires Follows(part, whole) && last !in whole
    ensures Follows(part, whole + [last]) && Follows(part + [last], whole + [last])
  {
    var longer := whole + [last];
    forall x | x in whole ensures FirstAt(longer, x) == FirstAt(whole, x) {
      FirstAtAppend(whole, last, x);
    }
    assert longer[|whole|] == last;
  }

  lemma {:induction false} DedupInOrder<T(!new)>(items: seq<T>)
    ensures InOrder(items, Dedup(items))
  {
    if items != [] {
      var init, last := items[..|items| - 1], items[|items| - 1];
      var r := Dedup(items);
      DedupInOrder(init);
      assert items == init + [last];
      forall i, j | 0 <= i < j < |r| ensures FirstAt(items, r[i]) < FirstAt(items, r[j]) {
        FirstAtAppend(init, last, r[i]);
        if r[j] in init {
          FirstAtAppend(init, last, r[j]);
        }
      }
    }
  }

  // A duplicate-free sequence over a finite set is no longer than the set is large.
  lemma {:induction false} DistinctFits<T(!new)>(p: seq<T>, s: set<T>)
    requires forall i, j :: 0 <= i < j < |p| ==> p[i] != p[j]
    requires forall x :: x in p ==> x in s
    ensures |p| <= |s|
  {
    if p != [] {
      var last := p[|p| - 1];
      var rest := p[..|p| - 1];
      forall x | x in rest ensures x in s - {last} {
        var i :| 0 <= i < |rest| && rest[i] == x;
        assert p[i] == x && p[|p| - 1] == last;
      }
      DistinctFits(rest, s - {last});
    }
  }
}
