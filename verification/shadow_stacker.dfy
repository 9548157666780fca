/**
 * The text-shadow stacker: the CSS `text-shadow` value is a comma-separated
 * list of shadows that the editor shows as a list of cards. The component
 * keeps that list as its state, splits the incoming value, and emits the
 * joined list after every edit (update, remove, add, move).
 */
module ShadowStacker {
  import opened Wrappers
  import opened Strings

  /** `DEFAULT_SHADOW`. */
  const DefaultShadow: string := "1px 1px 2px #000000ff"

  /** What a split yields and what a join can carry back: not empty, no comma, no white space at either end. */
  predicate ShadowEntry(x: string) {
    x != "" && ',' !in x && !IsSpace(x[0]) && !IsSpace(x[|x| - 1])
  }

  predicate AllEntries(xs: seq<string>) {
    forall i :: 0 <= i < |xs| ==> ShadowEntry(xs[i])
  }

  // ---------------------------------------------------------------------
  // Trimming
  // ---------------------------------------------------------------------

  /** Trimming removes characters and adds none. */
  lemma {:induction false} TrimStartChars(s: string)
    ensures forall ch :: ch in TrimStart(s) ==> ch in s
  {
    if s != [] && IsSpace(s[0]) {
      TrimStartChars(s[1..]);
    }
  }

  lemma TrimChars(s: string)
    ensures forall ch :: ch in Trim(s) ==> ch in s
  {
    TrimStartChars(s);
    var t := TrimStart(s);
    assert TrimEnd(t) == t[..|TrimEnd(t)|];
  }

  /** A string already trimmed is left as it is. */
  lemma TrimEntry(x: string)
    requires ShadowEntry(x)
    ensures Trim(x) == x
  {
    assert TrimStart(x) == x;
  }

  /** The blank a join puts after each comma is trimmed away again. */
  lemma TrimSpaced(x: string)
    requires ShadowEntry(x)
    ensures Trim(" " + x) == x
  {
    assert (" " + x)[1..] == x;
    assert TrimStart(" " + x) == TrimStart(x) == x;
  }

  // ---------------------------------------------------------------------
  // splitShadows and joinShadows
  // ---------------------------------------------------------------------

  /** `.map((s) => s.trim()).filter(Boolean)`. */
  function TrimPieces(pieces: seq<string>): (r: seq<string>)
    ensures |r| <= |pieces|
    ensures forall i :: 0 <= i < |r| ==> r[i] != ""
  {
    if pieces == [] then []
    else
      var t := Trim(pieces[0]);
      (if t == "" then [] else [t]) + TrimPieces(pieces[1..])
  }

  /** Pieces without a comma trim to entries. */
  lemma {:induction false} TrimPiecesEntries(pieces: seq<string>)
    requires forall j :: 0 <= j < |pieces| ==> ',' !in pieces[j]
    ensures AllEntries(TrimPieces(pieces))
  {
    if pieces != [] {
      TrimChars(pieces[0]);
      TrimPiecesEntries(pieces[1..]);
    }
  }

  /** Pieces that each trim to a given entry give exactly those entries back. */
  lemma {:induction false} TrimPiecesKeeps(pieces: seq<string>, xs: seq<string>)
    requires |pieces| == |xs|
    requires forall i :: 0 <= i < |xs| ==> Trim(pieces[i]) == xs[i] && xs[i] != ""
    ensures TrimPieces(pieces) == xs
  {
    if pieces != [] {
      TrimPiecesKeeps(pieces[1..], xs[1..]);
    }
  }

  /**
   * `splitShadows`: nothing for a missing or empty value; otherwise split at
   * each comma (with the white space around it), trim, drop empty pieces.
   */
  function SplitShadows(value: Option<string>): (r: seq<string>)
    ensures AllEntries(r)
  {
    if value.None? || value.value == "" then []
    else
      SplitPiecesFree(value.value, ',');
      TrimPiecesEntries(Split(value.value, ','));
      TrimPieces(Split(value.value, ','))
  }

  /** `joinShadows`. */
  function JoinShadows(values: seq<string>): string {
    Join(values, ", ")
  }

  /** A string without the separator is a single piece. */
  lemma {:induction false} SplitNoSep(a: string, c: char)
    requires c !in a
    ensures Split(a, c) == [a]
  {
    if a != [] {
      SplitNoSep(a[1..], c);
      assert [a[0]] + a[1..] == a;
    }
  }

  /** Splitting stops at the first separator. */
  lemma {:induction false} SplitAtFirst(a: string, b: string, c: char)
    requires c !in a
    ensures Split(a + [c] + b, c) == [a] + Split(b, c)
  {
    if a == [] {
      assert ([c] + b)[1..] == b;
    } else {
      assert (a + [c] + b)[1..] == a[1..] + [c] + b;
      SplitAtFirst(a[1..], b, c);
      assert (a + [c] + b)[0] == a[0] != c;
      assert [a[0]] + a[1..] == a;
    }
  }

  /** The pieces of a joined list: the first entry, then each later one behind its blank. */
  lemma {:induction false} SplitJoined(xs: seq<string>)
    requires xs != [] && forall i :: 0 <= i < |xs| ==> ',' !in xs[i]
    ensures var p := Split(JoinShadows(xs), ',');
      |p| == |xs| && p[0] == xs[0] && forall i :: 1 <= i < |xs| ==> p[i] == " " + xs[i]
    decreases |xs|
  {
    if |xs| > 1 {
      var t := JoinShadows(xs[1..]);
      assert JoinShadows(xs) == xs[0] + [','] + (" " + t);
      SplitAtFirst(xs[0], " " + t, ',');
      SplitJoined(xs[1..]);
      var q := Split(t, ',');
      assert (" " + t)[1..] == t;
      assert Split(" " + t, ',') == [" " + q[0]] + q[1..];
    } else {
      SplitNoSep(xs[0], ',');
    }
  }

  /** Splitting what a join emitted gives the list back, entry for entry. */
  lemma SplitJoinShadows(xs: seq<string>)
    requires AllEntries(xs)
    ensures SplitShadows(Some(JoinShadows(xs))) == xs
  {
    if xs != [] {
      SplitJoined(xs);
      var p := Split(JoinShadows(xs), ',');
      assert JoinShadows(xs) != "" by {
        assert p[0] == xs[0] && xs[0] != "";
      }
      forall i | 0 <= i < |xs|
        ensures Trim(p[i]) == xs[i]
      {
        if i == 0 { TrimEntry(xs[0]); } else { TrimSpaced(xs[i]); }
      }
      TrimPiecesKeeps(p, xs);
    }
  }

  /** Splitting is a normal form: the join of a split splits the same way again. */
  lemma SplitShadowsNormal(value: Option<string>)
    ensures SplitShadows(Some(JoinShadows(SplitShadows(value)))) == SplitShadows(value)
  {
    SplitJoinShadows(SplitShadows(value));
  }

  /** The initial state: the split value, or the default shadow when that is empty. */
  function InitialShadows(value: Option<string>): (r: seq<string>)
    ensures r != [] && AllEntries(r)
    ensures SplitShadows(value) != [] ==> r == SplitShadows(value)
  {
    var split := SplitShadows(value);
    if |split| > 0 then split else [DefaultShadow]
  }

  /**
   * The effect that follows the `value` prop: the state is replaced by the
   * initial state of the new value only when their joins differ.
   */
  function Synced(current: seq<string>, value: Option<string>): seq<string> {
    var next := InitialShadows(value);
    if JoinShadows(next) != JoinShadows(current) then next else current
  }

  /** After a sync the state always shows the value, and is never empty. */
  lemma SyncedShowsValue(current: seq<string>, value: Option<string>)
    ensures JoinShadows(Synced(current, value)) == JoinShadows(InitialShadows(value))
    ensures Synced(current, value) != []
  {
    var next := InitialShadows(value);
    assert JoinShadows(next) != "" by {
      assert JoinShadows(next)[..|next[0]|] == next[0] by { JoinStartsWithFirst(next); }
    }
  }

  lemma {:induction false} JoinStartsWithFirst(xs: seq<string>)
    requires xs != []
    ensures |JoinShadows(xs)| >= |xs[0]| && JoinShadows(xs)[..|xs[0]|] == xs[0]
  {
    if |xs| > 1 {
      assert JoinShadows(xs) == xs[0] + (", " + JoinShadows(xs[1..]));
    }
  }

  /** Syncing twice with the same value changes nothing the second time. */
  lemma SyncedIdempotent(current: seq<string>, value: Option<string>)
    ensures Synced(Synced(current, value), value) == Synced(current, value)
  {
    SyncedShowsValue(current, value);
  }

  /**
   * When the parent hands back what the stacker emitted, the list is kept:
   * an edit is never undone by the echo of its own output.
   */
  lemma EchoKeepsState(current: seq<string>)
    requires current != [] && AllEntries(current)
    ensures Synced(current, Some(JoinShadows(current))) == current
  {
    SplitJoinShadows(current);
  }

  // ---------------------------------------------------------------------
  // The edits
  // ---------------------------------------------------------------------

  /** `updateAt`: the entry at `idx` becomes `v`; every other entry and the length stay. */
  function UpdatedAt(s: seq<string>, idx: int, v: string): (r: seq<string>)
    ensures |r| == |s|
    ensures forall i :: 0 <= i < |s| ==> r[i] == if i == idx then v else s[i]
  {
    if 0 <= idx < |s| then s[..idx] + [v] + s[idx + 1..] else s
  }

  /** Putting back the old entry undoes an update. */
  lemma UpdateUndone(s: seq<string>, idx: int, v: string)
    requires 0 <= idx < |s|
    ensures UpdatedAt(UpdatedAt(s, idx, v), idx, s[idx]) == s
  {
  }

  /** The `filter` step of `removeAt`: the entry at `idx` leaves, the others keep their order. */
  function Removed(s: seq<string>, idx: int): (r: seq<string>)
    ensures 0 <= idx < |s| ==> |r| == |s| - 1
    ensures !(0 <= idx < |s|) ==> r == s
    ensures 0 <= idx < |s| ==> forall i :: 0 <= i < |r| ==> r[i] == if i < idx then s[i] else s[i + 1]
  {
    if 0 <= idx < |s| then s[..idx] + s[idx + 1..] else s
  }

  /** `removeAt`: as `Removed`, with the default shadow when nothing is left. */
  function RemovedAt(s: seq<string>, idx: int): (r: seq<string>)
    ensures r != []
    ensures Removed(s, idx) != [] ==> r == Removed(s, idx)
    ensures Removed(s, idx) == [] ==> r == [DefaultShadow]
  {
    var next := Removed(s, idx);
    if |next| > 0 then next else [DefaultShadow]
  }

  /** Adding a card and removing the last one gives the list back. */
  lemma RemoveUndoesAdd(s: seq<string>)
    requires s != []
    ensures RemovedAt(s + [DefaultShadow], |s|) == s
  {
    assert Removed(s + [DefaultShadow], |s|) == s;
  }

  /** The default shadow is itself a well-formed entry. */
  lemma DefaultShadowEntry()
    ensures ShadowEntry(DefaultShadow)
  {
    assert DefaultShadow[0] == '1' && DefaultShadow[|DefaultShadow| - 1] == 'f';
    assert forall k :: 0 <= k < |DefaultShadow| ==> DefaultShadow[k] != ',';
  }

  /** The edits keep every entry well-formed. */
  lemma EditsKeepEntries(s: seq<string>, idx: int, v: string)
    requires AllEntries(s)
    ensures ShadowEntry(v) ==> AllEntries(UpdatedAt(s, idx, v))
    ensures AllEntries(RemovedAt(s, idx))
    ensures AllEntries(s + [DefaultShadow])
  {
    DefaultShadowEntry();
    assert ShadowEntry(v) ==> AllEntries(UpdatedAt(s, idx, v)) by {
      var u := UpdatedAt(s, idx, v);
      assert forall i :: 0 <= i < |u| ==> u[i] == v || u[i] == s[i];
    }
    assert AllEntries(Removed(s, idx)) by {
      var r := Removed(s, idx);
      assert forall i :: 0 <= i < |r| ==> r[i] in s;
    }
  }

  /**
   * The `splice` pair of `move`: take the entry at `i` out, then insert it
   * so that it ends up at index `j`.
   */
  function Moved(s: seq<string>, i: nat, j: nat): seq<string>
    requires i < |s| && j < |s|
  {
    var rest := s[..i] + s[i + 1..];
    rest[..j] + [s[i]] + rest[j..]
  }

  /**
   * Where entry `k` of a moved list comes from: the moved entry lands at
   * `j`, the entries it passes shift by one, the rest stay.
   */
  function MoveSource(i: nat, j: nat, k: nat): nat {
    if k == j then i
    else if i <= k < j then k + 1
    else if j < k <= i then k - 1
    else k
  }

  /** Entry by entry, a move takes each entry from its source index. */
  lemma MovedAt(s: seq<string>, i: nat, j: nat)
    requires i < |s| && j < |s|
    ensures |Moved(s, i, j)| == |s|
    ensures forall k :: 0 <= k < |s| ==> MoveSource(i, j, k) < |s| && Moved(s, i, j)[k] == s[MoveSource(i, j, k)]
  {
  }

  /** A list that takes each entry from its source index is the moved list. */
  lemma MovedIs(s: seq<string>, t: seq<string>, i: nat, j: nat)
    requires i < |s| && j < |s| && |t| == |s|
    requires forall k :: 0 <= k < |s| ==> MoveSource(i, j, k) < |s| && t[k] == s[MoveSource(i, j, k)]
    ensures t == Moved(s, i, j)
  {
    MovedAt(s, i, j);
  }

  /** A move is a permutation. */
  lemma MovedPermutes(s: seq<string>, i: nat, j: nat)
    requires i < |s| && j < |s|
    ensures multiset(Moved(s, i, j)) == multiset(s)
  {
    var rest := s[..i] + s[i + 1..];
    calc {
      multiset(Moved(s, i, j));
      multiset(rest[..j]) + multiset{s[i]} + multiset(rest[j..]);
      { assert rest[..j] + rest[j..] == rest; }
      multiset(rest) + multiset{s[i]};
      multiset(s[..i]) + multiset{s[i]} + multiset(s[i + 1..]);
      { assert s[..i] + [s[i]] + s[i + 1..] == s; }
      multiset(s);
    }
  }

  /** Moving back undoes a move. */
  lemma MovedBack(s: seq<string>, i: nat, j: nat)
    requires i < |s| && j < |s|
    ensures Moved(Moved(s, i, j), j, i) == s
  {
    var t := Moved(s, i, j);
    MovedAt(s, i, j);
    MovedAt(t, j, i);
    forall k | 0 <= k < |s|
      ensures Moved(t, j, i)[k] == s[k]
    {
      assert MoveSource(i, j, MoveSource(j, i, k)) == k;
    }
  }

  /** Entries `i + 1 ..= j` each move one place down; the rest of the array stays. */
  method ShiftDown(a: array<string>, i: nat, j: nat)
    requires i <= j < a.Length
    modifies a
    ensures forall m :: 0 <= m < a.Length ==> a[m] == if i <= m < j then old(a[m + 1]) else old(a[m])
  {
    var k := i;
    while k < j
      invariant i <= k <= j
      invariant forall m :: 0 <= m < a.Length ==> a[m] == if i <= m < k then old(a[m + 1]) else old(a[m])
    {
      a[k] := a[k + 1];
      k := k + 1;
    }
  }

  /** Entries `j ..< i` each move one place up; the rest of the array stays. */
  method ShiftUp(a: array<string>, i: nat, j: nat)
    requires j <= i < a.Length
    modifies a
    ensures forall m :: 0 <= m < a.Length ==> a[m] == if j < m <= i then old(a[m - 1]) else old(a[m])
  {
    var k := i;
    while k > j
      invariant j <= k <= i
      invariant forall m :: 0 <= m < a.Length ==> a[m] == if k < m <= i then old(a[m - 1]) else old(a[m])
    {
      a[k] := a[k - 1];
      k := k - 1;
    }
  }

  /** The move done in place on an array: the entries between the two indices shift by one. */
  method MoveInPlace(a: array<string>, i: nat, j: nat)
    requires i < a.Length && j < a.Length
    modifies a
    ensures a[..] == Moved(old(a[..]), i, j)
  {
    ghost var s := a[..];
    var item := a[i];
    if i < j {
      ShiftDown(a, i, j);
    } else {
      ShiftUp(a, i, j);
    }
    a[j] := item;
    assert forall k :: 0 <= k < a.Length ==> MoveSource(i, j, k) < a.Length && a[k] == s[MoveSource(i, j, k)];
    MovedIs(s, a[..], i, j);
  }

  // ---------------------------------------------------------------------
  // The component's state
  // ---------------------------------------------------------------------

  /** The stacker's `shadows` state; each edit returns what it passes to `onChange`. */
  class Stacker {
    var shadows: seq<string>

    /** The state is never an empty list. */
    predicate Valid()
      reads this
    {
      shadows != []
    }

    constructor (value: Option<string>)
      ensures shadows == InitialShadows(value) && Valid()
    {
      shadows := InitialShadows(value);
    }

    /** The effect run whenever `value` changes. */
    method Sync(value: Option<string>)
      modifies this
      ensures shadows == Synced(old(shadows), value) && Valid()
    {
      var next := InitialShadows(value);
      SyncedShowsValue(shadows, value);
      if JoinShadows(next) != JoinShadows(shadows) {
        shadows := next;
      }
    }

    method UpdateAt(idx: int, v: string) returns (emitted: string)
      requires Valid()
      modifies this
      ensures shadows == UpdatedAt(old(shadows), idx, v) && Valid()
      ensures emitted == JoinShadows(shadows)
    {
      shadows := UpdatedAt(shadows, idx, v);
      emitted := JoinShadows(shadows);
    }

    method RemoveAt(idx: int) returns (emitted: string)
      modifies this
      ensures shadows == RemovedAt(old(shadows), idx) && Valid()
      ensures emitted == JoinShadows(shadows)
    {
      shadows := RemovedAt(shadows, idx);
      emitted := JoinShadows(shadows);
    }

    method AddNew() returns (emitted: string)
      modifies this
      ensures shadows == old(shadows) + [DefaultShadow] && Valid()
      ensures emitted == JoinShadows(shadows)
    {
      shadows := shadows + [DefaultShadow];
      emitted := JoinShadows(shadows);
    }

    /**
     * `move(idx, delta)`: a target outside the list leaves the state as it
     * is and emits nothing; otherwise the entry moves to `idx + delta` on a
     * copy of the list.
     */
    method Move(idx: int, delta: int) returns (emitted: Option<string>)
      requires 0 <= idx < |shadows|
      modifies this
      ensures var j := idx + delta;
        if 0 <= j < |old(shadows)| then shadows == Moved(old(shadows), idx, j) && emitted == Some(JoinShadows(shadows))
        else shadows == old(shadows) && emitted == None
      ensures Valid()
    {
      var newIndex := idx + delta;
      if newIndex < 0 || newIndex >= |shadows| {
        return None;
      }
      var next := new string[|shadows|](k requires 0 <= k < |shadows| reads this => shadows[k]);
      assert next[..] == shadows;
      MoveInPlace(next, idx, newIndex);
      shadows := next[..];
      emitted := Some(JoinShadows(shadows));
    }
  }
}
