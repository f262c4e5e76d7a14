/**
 * The two list passes of a frame, as an order-preserving "transform then keep" over a
 * sequence of entities: the fall pass moves every entity down and drops those below the
 * playfield, the collision pass drops the entities overlapping the catcher. Both walk
 * their list back to front and splice out the entries they drop.
 */
module Passes {
  import opened Geometry
  import opened Entities

  /** Which pass: falling one frame, or being caught by (colliding with) a box. */
  datatype Pass = Fall | CatchBy(box: Rect)
  {
    /** What the pass does to an entry it visits. */
    function Apply(e: Entity): Entity
    {
      match this
      case Fall => Moved(e)
      case CatchBy(_) => e
    }

    /** Whether the entry, once visited, stays in the list. */
    predicate Keeps(e: Entity)
    {
      match this
      case Fall => OnField(e)
      case CatchBy(box) => !IsColliding(box, e.Box())
    }
  }

  /** Visit every entry and keep, in order, the visited entries the pass keeps. */
  function Select(s: seq<Entity>, p: Pass): (r: seq<Entity>)
    ensures |r| <= |s|
  {
    if s == [] then []
    else (if p.Keeps(p.Apply(s[0])) then [p.Apply(s[0])] else []) + Select(s[1..], p)
  }

  /** How many entries `Select` drops. */
  function Dropped(s: seq<Entity>, p: Pass): (n: nat)
    ensures n == |s| - |Select(s, p)|
  {
    if s == [] then 0
    else (if p.Keeps(p.Apply(s[0])) then 0 else 1) + Dropped(s[1..], p)
  }

  /** Splitting off the first element of a suffix: one step of a back-to-front pass. */
  lemma SelectStep(s: seq<Entity>, i: nat, p: Pass)
    requires i < |s|
    ensures Select(s[i..], p)
            == (if p.Keeps(p.Apply(s[i])) then [p.Apply(s[i])] else []) + Select(s[i + 1..], p)
    ensures Dropped(s[i..], p) == (if p.Keeps(p.Apply(s[i])) then 0 else 1) + Dropped(s[i + 1..], p)
  {
    assert s[i..][0] == s[i];
    assert s[i..][1..] == s[i + 1..];
  }

  /** Overwriting entry `|pre|` of `pre + [x] + tail` with `img` gives `pre + ([img] + tail)`. */
  lemma OverwriteAt(cur: seq<Entity>, pre: seq<Entity>, x: Entity, tail: seq<Entity>, img: Entity)
    requires cur == pre + [x] + tail
    ensures |pre| < |cur| && cur[|pre|] == x
    ensures cur[|pre| := img] == pre + ([img] + tail)
    ensures cur == pre + ([x] + tail)
  {
    var next := cur[|pre| := img];
    assert next[..|pre|] == pre && next[|pre| + 1..] == tail;
    assert next == pre + ([img] + tail);
    assert cur == pre + ([x] + tail);
  }

  /**
   * Splicing entry `|pre|` out of `pre + [x] + tail` gives `pre + tail`, whether or not it
   * was overwritten first.
   */
  lemma SpliceOut(cur: seq<Entity>, pre: seq<Entity>, x: Entity, tail: seq<Entity>, img: Entity)
    requires cur == pre + [x] + tail
    ensures |pre| < |cur|
    ensures cur[|pre| := img][..|pre|] + cur[|pre| := img][|pre| + 1..] == pre + tail
    ensures cur[..|pre|] + cur[|pre| + 1..] == pre + tail
  {
    var next := cur[|pre| := img];
    assert next[..|pre|] == pre && cur[..|pre|] == pre;
    assert next[|pre| + 1..] == tail && cur[|pre| + 1..] == tail;
  }

  /** Midway through the pass, the entry at the cursor is still the original one. */
  lemma AtCursor(s: seq<Entity>, cur: seq<Entity>, i: nat, p: Pass)
    requires i < |s| && cur == s[..i + 1] + Select(s[i + 1..], p)
    ensures i < |cur| && cur[i] == s[i]
  {
    assert cur[i] == s[..i + 1][i];
  }

  /**
   * One step of the back-to-front pass at position `i`, where everything after `i` is
   * already done, for an entry the pass keeps: it is overwritten with its image.
   */
  lemma KeepStep(s: seq<Entity>, cur: seq<Entity>, i: nat, p: Pass)
    requires i < |s| && cur == s[..i + 1] + Select(s[i + 1..], p)
    requires p.Keeps(p.Apply(s[i]))
    ensures i < |cur| && cur[i := p.Apply(s[i])] == s[..i] + Select(s[i..], p)
    ensures p.Apply(s[i]) == s[i] ==> cur == s[..i] + Select(s[i..], p)
    ensures Dropped(s[i..], p) == Dropped(s[i + 1..], p)
  {
    SelectStep(s, i, p);
    assert s[..i + 1] == s[..i] + [s[i]];
    OverwriteAt(cur, s[..i], s[i], Select(s[i + 1..], p), p.Apply(s[i]));
  }

  /**
   * The same step for an entry the pass drops: once overwritten with its image, it is
   * spliced out.
   */
  lemma DropStep(s: seq<Entity>, cur: seq<Entity>, i: nat, p: Pass)
    requires i < |s| && cur == s[..i + 1] + Select(s[i + 1..], p)
    requires !p.Keeps(p.Apply(s[i]))
    ensures i < |cur|
    ensures var next := cur[i := p.Apply(s[i])];
      next[..i] + next[i + 1..] == s[..i] + Select(s[i..], p) &&
      cur[..i] + cur[i + 1..] == s[..i] + Select(s[i..], p)
    ensures Dropped(s[i..], p) == 1 + Dropped(s[i + 1..], p)
  {
    SelectStep(s, i, p);
    assert s[..i + 1] == s[..i] + [s[i]];
    SpliceOut(cur, s[..i], s[i], Select(s[i + 1..], p), p.Apply(s[i]));
  }

  /**
   * One step of a collision pass at position `i`: an entry overlapping the box is
   * spliced out and counted, any other stays where it is.
   */
  lemma CatchStep(s: seq<Entity>, cur: seq<Entity>, i: nat, box: Rect)
    requires i < |s| && cur == s[..i + 1] + Select(s[i + 1..], CatchBy(box))
    ensures i < |cur| && cur[i] == s[i]
    ensures IsColliding(box, s[i].Box()) ==>
              cur[..i] + cur[i + 1..] == s[..i] + Select(s[i..], CatchBy(box)) &&
              Dropped(s[i..], CatchBy(box)) == Dropped(s[i + 1..], CatchBy(box)) + 1
    ensures !IsColliding(box, s[i].Box()) ==>
              cur == s[..i] + Select(s[i..], CatchBy(box)) &&
              Dropped(s[i..], CatchBy(box)) == Dropped(s[i + 1..], CatchBy(box))
  {
    AtCursor(s, cur, i, CatchBy(box));
    if IsColliding(box, s[i].Box()) {
      DropStep(s, cur, i, CatchBy(box));
    } else {
      KeepStep(s, cur, i, CatchBy(box));
    }
  }

  /** The indices (offset by `base`) of the entries of `s` that `Select` keeps. */
  ghost function Picked(s: seq<Entity>, p: Pass, base: nat): seq<nat>
  {
    if s == [] then []
    else (if p.Keeps(p.Apply(s[0])) then [base] else []) + Picked(s[1..], p, base + 1)
  }

  /** Every index lies in the shifted range of `s`, and they strictly increase. */
  ghost predicate IncreasingIn(idx: seq<nat>, base: nat, n: nat)
  {
    (forall j :: 0 <= j < |idx| ==> base <= idx[j] < base + n) &&
    (forall j, k :: 0 <= j < k < |idx| ==> idx[j] < idx[k])
  }

  lemma {:induction false} PickedIncreasing(s: seq<Entity>, p: Pass, base: nat)
    ensures |Picked(s, p, base)| == |Select(s, p)|
    ensures IncreasingIn(Picked(s, p, base), base, |s|)
  {
    if s != [] {
      PickedIncreasing(s[1..], p, base + 1);
    }
  }

  lemma {:induction false} PickedValues(s: seq<Entity>, p: Pass, base: nat)
    ensures |Picked(s, p, base)| == |Select(s, p)|
    ensures forall j :: 0 <= j < |Select(s, p)| ==>
              base <= Picked(s, p, base)[j] < base + |s| &&
              Select(s, p)[j] == p.Apply(s[Picked(s, p, base)[j] - base])
  {
    if s != [] {
      var tail := s[1..];
      PickedValues(tail, p, base + 1);
      var rt, it := Select(tail, p), Picked(tail, p, base + 1);
      var r, idx := Select(s, p), Picked(s, p, base);
      var h := if p.Keeps(p.Apply(s[0])) then 1 else 0;
      forall j | 0 <= j < |r|
        ensures base <= idx[j] < base + |s| && r[j] == p.Apply(s[idx[j] - base])
      {
        if j >= h {
          assert idx[j] == it[j - h] && r[j] == rt[j - h];
          assert s[idx[j] - base] == tail[it[j - h] - (base + 1)];
        }
      }
    }
  }

  lemma {:induction false} PickedExactly(s: seq<Entity>, p: Pass, base: nat)
    ensures forall i :: 0 <= i < |s| ==> (p.Keeps(p.Apply(s[i])) <==> base + i in Picked(s, p, base))
    ensures forall x :: x in Picked(s, p, base) ==> base <= x
  {
    if s != [] {
      var tail := s[1..];
      PickedExactly(tail, p, base + 1);
      var it, idx := Picked(tail, p, base + 1), Picked(s, p, base);
      forall i | 0 <= i < |s|
        ensures p.Keeps(p.Apply(s[i])) <==> base + i in idx
      {
        if i > 0 {
          assert s[i] == tail[i - 1];
          assert base + i in idx <==> base + 1 + (i - 1) in it;
        }
      }
    }
  }

  /**
   * `Select` keeps exactly the entries the pass keeps, each as the pass left it, in
   * their original relative order: its result lists `p.Apply(s[i])` for the strictly
   * increasing positions `i` at which the pass keeps the entry, and for no others.
   */
  lemma SelectKeepsExactlyInOrder(s: seq<Entity>, p: Pass)
    ensures var r, idx := Select(s, p), Picked(s, p, 0);
      |idx| == |r| &&
      (forall j :: 0 <= j < |r| ==> idx[j] < |s| && r[j] == p.Apply(s[idx[j]])) &&
      (forall j, k :: 0 <= j < k < |idx| ==> idx[j] < idx[k]) &&
      (forall i :: 0 <= i < |s| ==> (p.Keeps(p.Apply(s[i])) <==> i in idx))
  {
    var r, idx := Select(s, p), Picked(s, p, 0);
    PickedIncreasing(s, p, 0);
    PickedValues(s, p, 0);
    PickedExactly(s, p, 0);
    forall j | 0 <= j < |r|
      ensures idx[j] < |s| && r[j] == p.Apply(s[idx[j]])
    {
      assert r[j] == p.Apply(s[idx[j] - 0]);
    }
  }

  /**
   * The fall pass in the game's terms: the survivors are exactly the entities whose top
   * edge, one step further down, is not below the playfield, each moved down by its own
   * speed, in their original order.
   */
  lemma FallSurvivors(s: seq<Entity>)
    ensures var r, idx := Select(s, Fall), Picked(s, Fall, 0);
      |idx| == |r| &&
      (forall j :: 0 <= j < |r| ==>
         idx[j] < |s| && r[j] == s[idx[j]].(y := s[idx[j]].y + s[idx[j]].speed)) &&
      (forall j, k :: 0 <= j < k < |idx| ==> idx[j] < idx[k]) &&
      (forall i :: 0 <= i < |s| ==> (s[i].y + s[i].speed <= GameHeight <==> i in idx))
  {
    SelectKeepsExactlyInOrder(s, Fall);
  }

  /**
   * The collision pass in the game's terms: the entries left are exactly those that do
   * not overlap the box, unchanged and in their original order, and the number removed
   * is the number that do.
   */
  lemma CatchSurvivors(s: seq<Entity>, box: Rect)
    ensures var r, idx := Select(s, CatchBy(box)), Picked(s, CatchBy(box), 0);
      |idx| == |r| && Dropped(s, CatchBy(box)) == |s| - |idx| &&
      (forall j :: 0 <= j < |r| ==> idx[j] < |s| && r[j] == s[idx[j]]) &&
      (forall j, k :: 0 <= j < k < |idx| ==> idx[j] < idx[k]) &&
      (forall i :: 0 <= i < |s| ==> (!IsColliding(box, s[i].Box()) <==> i in idx))
  {
    SelectKeepsExactlyInOrder(s, CatchBy(box));
  }
}
