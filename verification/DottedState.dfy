/** Reading and writing nested dictionaries in place by dotted key.

    Dictionaries are heap objects that refer to each other.  A ghost layout says which
    dictionary stands at which path; a state loaded from JSON is a tree, so no dictionary
    stands at two paths. */
module DottedState {
  import opened Basics

  datatype Val = Atom(value: int) | Nested(dict: Dict)

  class Dict {
    var items: map<string, Val>

    constructor ()
      ensures items == map[]
    {
      items := map[];
    }
  }

  // ----- paths ----------------------------------------------------------------------------------

  datatype Path = Root | Sub(parent: Path, key: string)

  /** `p` is `q` or an ancestor of `q`. */
  predicate Under(p: Path, q: Path) {
    p == q || (q.Sub? && Under(p, q.parent))
  }

  function PathOf(parts: seq<string>): Path {
    if parts == [] then Root else Sub(PathOf(parts[..|parts| - 1]), parts[|parts| - 1])
  }

  /** `key.split(".")`, with the characters of the current part so far in `part`. */
  function SplitDots(key: string, part: string): (parts: seq<string>)
    ensures parts != []
    decreases |key|
  {
    if key == "" then [part]
    else if key[0] == '.' then [part] + SplitDots(key[1..], "")
    else SplitDots(key[1..], part + [key[0]])
  }

  /** Where a dotted key points. */
  function KeyPath(key: string): Path {
    PathOf(SplitDots(key, ""))
  }

  function JoinDots(parts: seq<string>): string
    requires parts != []
  {
    if |parts| == 1 then parts[0] else parts[0] + "." + JoinDots(parts[1..])
  }

  /** Splitting at dots and joining again is the identity, and no part has a dot. */
  lemma {:induction false} SplitThenJoin(key: string, part: string)
    requires '.' !in part
    ensures JoinDots(SplitDots(key, part)) == part + key
    ensures forall p :: p in SplitDots(key, part) ==> '.' !in p
    decreases |key|
  {
    if key != "" {
      if key[0] == '.' {
        SplitThenJoin(key[1..], "");
        var rest := SplitDots(key[1..], "");
        assert SplitDots(key, part)[1..] == rest && "" + key[1..] == key[1..];
        assert part + "." + key[1..] == part + key;
      } else {
        SplitThenJoin(key[1..], part + [key[0]]);
        assert part + [key[0]] + key[1..] == part + key;
      }
    }
  }

  /** And a key made of parts without dots splits into exactly these parts. */
  lemma {:induction false} JoinThenSplit(parts: seq<string>, part: string, read: string)
    requires parts != [] && (forall p :: p in parts ==> '.' !in p) && read + part == parts[0]
    ensures SplitDots(part + JoinDots(parts)[|parts[0]|..], read) == parts
    decreases |parts|, |part|
  {
    var key := part + JoinDots(parts)[|parts[0]|..];
    if part != "" {
      assert parts[0][|read|] == part[0] && part[0] in parts[0];
      assert key[1..] == part[1..] + JoinDots(parts)[|parts[0]|..];
      JoinThenSplit(parts, part[1..], read + [part[0]]);
    } else if |parts| > 1 {
      var rest := parts[1..];
      assert JoinDots(parts)[|parts[0]|..] == "." + JoinDots(rest);
      assert key[1..] == rest[0] + JoinDots(rest)[|rest[0]|..] by { JoinStartsWithFirst(rest); }
      JoinThenSplit(rest, rest[0], "");
      assert parts == [parts[0]] + rest;
      assert key == "." + key[1..] && read == parts[0];
    } else {
      assert JoinDots(parts) == parts[0] && key == "" && read == parts[0];
    }
  }

  lemma {:induction false} JoinStartsWithFirst(parts: seq<string>)
    requires parts != []
    ensures |parts[0]| <= |JoinDots(parts)| && JoinDots(parts) == parts[0] + JoinDots(parts)[|parts[0]|..]
  {
  }

  lemma {:induction false} KeyOfParts(parts: seq<string>)
    requires parts != [] && forall p :: p in parts ==> '.' !in p
    ensures SplitDots(JoinDots(parts), "") == parts && KeyPath(JoinDots(parts)) == PathOf(parts)
  {
    JoinStartsWithFirst(parts);
    JoinThenSplit(parts, parts[0], "");
  }

  /** The path `s`, read from `base` instead of from the root. */
  function Graft(base: Path, s: Path): Path {
    match s
    case Root => base
    case Sub(p, k) => Sub(Graft(base, p), k)
  }

  function Strip(base: Path, q: Path): Path {
    if q == base || q.Root? then Root else Sub(Strip(base, q.parent), q.key)
  }

  function Depth(p: Path): nat {
    if p.Root? then 0 else 1 + Depth(p.parent)
  }

  lemma {:induction false} UnderDepth(p: Path, q: Path)
    requires Under(p, q)
    ensures Depth(p) <= Depth(q)
    ensures p != q ==> Depth(p) < Depth(q)
  {
    if p != q { UnderDepth(p, q.parent); }
  }

  lemma {:induction false} UnderTransitive(p: Path, q: Path, r: Path)
    requires Under(p, q) && Under(q, r)
    ensures Under(p, r)
  {
    if q != r { UnderTransitive(p, q, r.parent); }
  }

  lemma {:induction false} GraftUnder(base: Path, s: Path)
    ensures Under(base, Graft(base, s))
    ensures Strip(base, Graft(base, s)) == s
  {
    if s.Sub? {
      GraftUnder(base, s.parent);
      UnderDepth(base, Graft(base, s.parent));
    }
  }

  lemma {:induction false} StripGraft(base: Path, q: Path)
    requires Under(base, q)
    ensures Graft(base, Strip(base, q)) == q
  {
    if q != base { StripGraft(base, q.parent); }
  }

  // ----- layouts ---------------------------------------------------------------------------------

  type Layout = map<Path, Dict>

  /** What the laid-out dictionaries hold at some moment. */
  type Content = map<Path, map<string, Val>>

  ghost function Contents(at: Layout): Content
    reads at.Values
  {
    map p | p in at :: at[p].items
  }

  predicate Holds(c: Content, p: Path, k: string, v: Val) {
    p in c && k in c[p] && c[p][k] == v
  }

  /** Every dictionary but the root is the value of its key in its parent, every nested
      dictionary is laid out, and no dictionary stands at two paths. */
  ghost predicate IsTree(at: Layout, c: Content) {
    && at.Keys == c.Keys && Root in at
    && (forall p :: Anchored(at, c, p))
    && (forall p, k :: LaidOut(at, c, p, k))
    && (forall p, q :: StandOnce(at, p, q))
  }

  predicate Anchored(at: Layout, c: Content, p: Path) {
    p in at && p.Sub? ==> Holds(c, p.parent, p.key, Nested(at[p]))
  }

  predicate LaidOut(at: Layout, c: Content, p: Path, k: string) {
    p in c && k in c[p] && c[p][k].Nested? ==> Sub(p, k) in at
  }

  predicate StandOnce(at: Layout, p: Path, q: Path) {
    p in at && q in at && at[p] == at[q] ==> p == q
  }

  ghost predicate Tree(at: Layout)
    reads at.Values
  {
    IsTree(at, Contents(at))
  }

  /** What stands at a path other than the root. */
  function Find(c: Content, q: Path): Option<Val> {
    if q.Sub? && q.parent in c && q.key in c[q.parent] then Some(c[q.parent][q.key]) else None
  }

  ghost function Lookup(at: Layout, q: Path): Option<Val>
    reads at.Values
  {
    Find(Contents(at), q)
  }

  lemma {:induction false} AncestorsLaidOut(at: Layout, c: Content, p: Path, q: Path)
    requires IsTree(at, c) && q in at && Under(p, q)
    ensures p in at
  {
    if p != q {
      assert Anchored(at, c, q);
      AncestorsLaidOut(at, c, p, q.parent);
    }
  }

  /** A path holds a nested dictionary exactly when a dictionary is laid out there. */
  lemma {:induction false} NestedIsLaidOut(at: Layout, c: Content, q: Path)
    requires IsTree(at, c) && q.Sub?
    ensures q in at <==> Find(c, q).Some? && Find(c, q).value.Nested?
    ensures q in at ==> Find(c, q) == Some(Nested(at[q]))
  {
    assert Anchored(at, c, q) && LaidOut(at, c, q.parent, q.key);
  }

  /** Nothing stands below a place without a dictionary. */
  lemma {:induction false} NothingBelow(at: Layout, c: Content, p: Path, q: Path)
    requires IsTree(at, c) && p !in at && Under(p, q) && p != q
    ensures Find(c, q) == None
  {
    if q.parent in at { AncestorsLaidOut(at, c, p, q.parent); }
  }

  lemma {:induction false} PrefixUnder(parts: seq<string>, i: nat)
    requires i <= |parts|
    ensures Under(PathOf(parts[..i]), PathOf(parts))
    decreases |parts| - i
  {
    if i == |parts| {
      assert parts[..i] == parts;
    } else {
      PrefixUnder(parts, i + 1);
      assert parts[..i + 1][..i] == parts[..i];
      UnderTransitive(PathOf(parts[..i]), PathOf(parts[..i + 1]), PathOf(parts));
    }
  }

  // ----- reading -----------------------------------------------------------------------------------

  method GetDotted(bucket: Dict, key: string, ghost at: Layout) returns (found: Option<Val>)
    requires Tree(at) && at[Root] == bucket
    ensures found == Lookup(at, KeyPath(key))
  {
    var parts := SplitDots(key, "");
    ghost var c := Contents(at);
    var cursor := Nested(bucket);
    var i := 0;
    while i < |parts|
      invariant 0 <= i <= |parts|
      invariant if i == 0 then cursor == Nested(bucket) else Find(c, PathOf(parts[..i])) == Some(cursor)
    {
      WalkStep(at, c, parts, i, cursor);
      if !cursor.Nested? || parts[i] !in cursor.dict.items {
        return None;
      }
      cursor := cursor.dict.items[parts[i]];
      i := i + 1;
    }
    assert parts[..i] == parts;
    found := Some(cursor);
  }

  /** Where the cursor of the walk is, and what its next look means. */
  lemma {:induction false} WalkStep(at: Layout, c: Content, parts: seq<string>, i: nat, cursor: Val)
    requires IsTree(at, c) && i < |parts|
    requires if i == 0 then cursor == Nested(at[Root]) else Find(c, PathOf(parts[..i])) == Some(cursor)
    ensures var here := PathOf(parts[..i]);
            if cursor.Nested? && here in c && parts[i] in c[here]
            then cursor.dict == at[here] && Find(c, PathOf(parts[..i + 1])) == Some(c[here][parts[i]])
            else Find(c, PathOf(parts)) == None
    ensures cursor.Nested? ==> PathOf(parts[..i]) in at && at[PathOf(parts[..i])] == cursor.dict
  {
    var here := PathOf(parts[..i]);
    assert parts[..i + 1][..i] == parts[..i];
    if i > 0 { NestedIsLaidOut(at, c, here); }
    if here !in at || parts[i] !in c[here] { NotFound(at, c, parts, i); }
  }

  /** When the walk stops early, nothing stands at the whole path. */
  lemma {:induction false} NotFound(at: Layout, c: Content, parts: seq<string>, i: nat)
    requires IsTree(at, c) && i < |parts|
    requires PathOf(parts[..i]) !in at || parts[i] !in c[PathOf(parts[..i])]
    ensures Find(c, PathOf(parts)) == None
  {
    var next := PathOf(parts[..i + 1]);
    assert parts[..i + 1][..i] == parts[..i];
    PrefixUnder(parts, i);
    PrefixUnder(parts, i + 1);
    if PathOf(parts) != next {
      NestedIsLaidOut(at, c, next);
      NothingBelow(at, c, next, PathOf(parts));
    }
  }

  /** What nested lookups by the parts of a key give, starting at `here`:
      `bucket["a"]["b"]["c"]` for the parts a, b and c. */
  function ReadParts(c: Content, here: Path, parts: seq<string>): Option<Val>
    requires parts != []
    decreases |parts|
  {
    if here !in c || parts[0] !in c[here] then None
    else if |parts| == 1 then Some(c[here][parts[0]])
    else if c[here][parts[0]].Nested? then ReadParts(c, Sub(here, parts[0]), parts[1..])
    else None
  }

  lemma {:induction false} PartsBelow(here: Path, parts: seq<string>)
    requires parts != []
    ensures Graft(here, PathOf(parts)) == if |parts| == 1 then Sub(here, parts[0])
                                          else Graft(Sub(here, parts[0]), PathOf(parts[1..]))
    decreases |parts|
  {
    var n := |parts| - 1;
    if n > 0 {
      PartsBelow(here, parts[..n]);
      assert parts[..n][1..] == parts[1..][..n - 1] && parts[1..][n - 1] == parts[n];
      if n == 1 { assert parts[1..][..0] == []; }
    } else {
      assert parts[..0] == [];
    }
  }

  /** Reading at a path is looking up part after part. */
  lemma {:induction false} FindIsLookup(at: Layout, c: Content, here: Path, parts: seq<string>)
    requires IsTree(at, c) && here in at && parts != []
    ensures Find(c, Graft(here, PathOf(parts))) == ReadParts(c, here, parts)
    decreases |parts|
  {
    PartsBelow(here, parts);
    if |parts| > 1 {
      var next := Sub(here, parts[0]);
      NestedIsLaidOut(at, c, next);
      if next in at {
        FindIsLookup(at, c, next, parts[1..]);
      } else {
        PathOfSub(parts[1..]);
        GraftUnder(next, PathOf(parts[1..]));
        NothingBelow(at, c, next, Graft(next, PathOf(parts[1..])));
      }
    }
  }

  lemma {:induction false} PathOfSub(parts: seq<string>)
    requires parts != []
    ensures PathOf(parts).Sub?
  {
  }

  lemma {:induction false} GraftRoot(p: Path)
    ensures Graft(Root, p) == p
  {
    if p.Sub? { GraftRoot(p.parent); }
  }

  /** `_get_dotted` for a key made of parts without dots. */
  method GetParts(bucket: Dict, parts: seq<string>, ghost at: Layout) returns (found: Option<Val>)
    requires Tree(at) && at[Root] == bucket && parts != [] && forall p :: p in parts ==> '.' !in p
    ensures found == ReadParts(Contents(at), Root, parts)
  {
    found := GetDotted(bucket, JoinDots(parts), at);
    KeyOfParts(parts);
    GraftRoot(PathOf(parts));
    FindIsLookup(at, Contents(at), Root, parts);
  }

  // ----- writing ------------------------------------------------------------------------------------

  /** What was at `path` and below gives way to `sub`. */
  ghost function Replaced<T>(at: map<Path, T>, path: Path, sub: map<Path, T>): map<Path, T> {
    map q | q in at.Keys + (set s | s in sub :: Graft(path, s)) &&
            (if Under(path, q) then Strip(path, q) in sub else q in at) ::
      if Under(path, q) then sub[Strip(path, q)] else at[q]
  }

  lemma {:induction false} ReplacedAt<T>(at: map<Path, T>, path: Path, sub: map<Path, T>, q: Path)
    ensures q in Replaced(at, path, sub) <==> if Under(path, q) then Strip(path, q) in sub else q in at
    ensures q in Replaced(at, path, sub) ==>
              Replaced(at, path, sub)[q] == if Under(path, q) then sub[Strip(path, q)] else at[q]
  {
    if Under(path, q) { StripGraft(path, q); }
  }

  /** The new value and its own layout: none for an atom. */
  ghost predicate ValueTree(v: Val, sub: Layout, c: Content) {
    if v.Nested? then IsTree(sub, c) && sub[Root] == v.dict else sub == map[] && c == map[]
  }

  /** The content after `value` is stored at `path` in its parent. */
  ghost function Stored(c: Content, path: Path, value: Val, sub: Content): Content
    requires path.Sub? && path.parent in c
  {
    Replaced(c[path.parent := c[path.parent][path.key := value]], path, sub)
  }

  lemma {:induction false} NotUnderParent(path: Path)
    requires path.Sub?
    ensures !Under(path, path.parent)
  {
    if Under(path, path.parent) { UnderDepth(path, path.parent); }
  }

  lemma {:induction false} StoredAt(c: Content, path: Path, value: Val, sub: Content, q: Path)
    requires path.Sub? && path.parent in c
    ensures q in Stored(c, path, value, sub) <==> if Under(path, q) then Strip(path, q) in sub else q in c
    ensures q in Stored(c, path, value, sub) ==>
              Stored(c, path, value, sub)[q] == if Under(path, q) then sub[Strip(path, q)]
                                               else if q == path.parent then c[q][path.key := value] else c[q]
  {
    ReplacedAt(c[path.parent := c[path.parent][path.key := value]], path, sub, q);
  }

  /** What stands where after the store, for every path. */
  lemma {:induction false} FindAfterStore(at: Layout, c: Content, path: Path, value: Val, sub: Layout, cSub: Content,
                                          q: Path)
    requires IsTree(at, c) && path.Sub? && path.parent in at && ValueTree(value, sub, cSub) && q.Sub?
    ensures Find(Stored(c, path, value, cSub), q) ==
            if q == path then Some(value)
            else if Under(path, q) then Find(cSub, Strip(path, q))
            else Find(c, q)
  {
    StoredAt(c, path, value, cSub, q.parent);
    NotUnderParent(path);
    if Under(path, q) && q != path {
      assert Strip(path, q) == Sub(Strip(path, q.parent), q.key);
      if q.parent == path { assert Strip(path, path) == Root; }
    } else if q != path {
      assert !Under(path, q.parent);
    }
  }

  lemma {:induction false} StoreKeepsTree(at: Layout, c: Content, path: Path, value: Val, sub: Layout, cSub: Content)
    requires IsTree(at, c) && path.Sub? && path.parent in at
    requires ValueTree(value, sub, cSub) && at.Values !! sub.Values
    ensures IsTree(Replaced(at, path, sub), Stored(c, path, value, cSub))
  {
    var at', c' := Replaced(at, path, sub), Stored(c, path, value, cSub);
    forall q
      ensures q in at' <==> q in c'
      ensures q in at' ==> at'[q] == if Under(path, q) then sub[Strip(path, q)] else at[q]
      ensures q in at' <==> if Under(path, q) then Strip(path, q) in sub else q in at
    {
      ReplacedAt(at, path, sub, q);
      StoredAt(c, path, value, cSub, q);
    }
    assert Root in at';
    forall p
      ensures Anchored(at', c', p)
    {
      if p in at' && p.Sub? { ParentHolds(at, c, path, value, sub, cSub, p); }
    }
    forall p, k
      ensures LaidOut(at', c', p, k)
    {
      if p in c' && k in c'[p] && c'[p][k].Nested? { NestedLaidOutAfter(at, c, path, value, sub, cSub, p, k); }
    }
    forall p, q
      ensures StandOnce(at', p, q)
    {
      if p in at' && q in at' && at'[p] == at'[q] { StandsOnceAfter(at, c, path, value, sub, cSub, p, q); }
    }
  }

  lemma {:induction false} StandsOnceAfter(at: Layout, c: Content, path: Path, value: Val, sub: Layout, cSub: Content,
                                           p: Path, q: Path)
    requires IsTree(at, c) && ValueTree(value, sub, cSub) && at.Values !! sub.Values
    requires p in Replaced(at, path, sub) && q in Replaced(at, path, sub)
    requires Replaced(at, path, sub)[p] == Replaced(at, path, sub)[q]
    ensures p == q
  {
    ReplacedAt(at, path, sub, p);
    ReplacedAt(at, path, sub, q);
    var d := Replaced(at, path, sub)[p];
    if Under(path, p) { StripGraft(path, p); assert d in sub.Values; } else { assert d in at.Values; }
    if Under(path, q) { StripGraft(path, q); assert d in sub.Values; } else { assert d in at.Values; }
    assert StandOnce(at, p, q) && StandOnce(sub, Strip(path, p), Strip(path, q));
  }

  lemma {:induction false} ParentHolds(at: Layout, c: Content, path: Path, value: Val, sub: Layout, cSub: Content,
                                       p: Path)
    requires IsTree(at, c) && path.Sub? && path.parent in at && ValueTree(value, sub, cSub)
    requires p in Replaced(at, path, sub) && p.Sub?
    ensures Holds(Stored(c, path, value, cSub), p.parent, p.key, Nested(Replaced(at, path, sub)[p]))
  {
    ReplacedAt(at, path, sub, p);
    FindAfterStore(at, c, path, value, sub, cSub, p);
    if p == path {
      assert Strip(path, path) == Root;
    } else if Under(path, p) {
      assert Strip(path, p) == Sub(Strip(path, p.parent), p.key);
      NestedIsLaidOut(sub, cSub, Strip(path, p));
    } else {
      NestedIsLaidOut(at, c, p);
    }
  }

  lemma {:induction false} NestedLaidOutAfter(at: Layout, c: Content, path: Path, value: Val, sub: Layout,
                                              cSub: Content, p: Path, k: string)
    requires IsTree(at, c) && path.Sub? && path.parent in at && ValueTree(value, sub, cSub)
    requires p in Stored(c, path, value, cSub) && k in Stored(c, path, value, cSub)[p]
    requires Stored(c, path, value, cSub)[p][k].Nested?
    ensures Sub(p, k) in Replaced(at, path, sub)
  {
    var q := Sub(p, k);
    FindAfterStore(at, c, path, value, sub, cSub, q);
    ReplacedAt(at, path, sub, q);
    if q == path {
      assert Strip(path, path) == Root;
    } else if Under(path, q) {
      assert Strip(path, q) == Sub(Strip(path, p), k);
      NestedIsLaidOut(sub, cSub, Strip(path, q));
    } else {
      NestedIsLaidOut(at, c, q);
    }
  }

  /** The store itself, on the heap. */
  method Store(parent: Dict, key: string, value: Val, ghost path: Path, ghost at: Layout, ghost sub: Layout)
    returns (ghost at': Layout)
    requires Tree(at) && path.Sub? && path.key == key && path.parent in at && at[path.parent] == parent
    requires ValueTree(value, sub, Contents(sub)) && at.Values !! sub.Values
    modifies parent
    ensures at' == Replaced(at, path, sub) && Tree(at')
    ensures Contents(at') == Stored(old(Contents(at)), path, value, old(Contents(sub)))
  {
    ghost var c, cSub := Contents(at), Contents(sub);
    StoreKeepsTree(at, c, path, value, sub, cSub);
    parent.items := parent.items[key := value];
    at' := Replaced(at, path, sub);
    forall q | q in at'
      ensures at'[q].items == Stored(c, path, value, cSub)[q]
    {
      ReplacedAt(at, path, sub, q);
      StoredAt(c, path, value, cSub, q);
      if Under(path, q) { assert at'[q] in sub.Values; } else { assert StandOnce(at, q, path.parent); }
    }
    assert Contents(at') == Stored(c, path, value, cSub);
  }

  /** Paths that a write at `path` leaves alone: neither on the way to it nor below it. */
  predicate Apart(path: Path, q: Path) {
    q.Sub? && !Under(path, q) && !Under(q, path)
  }

  /** What `_set_dotted` does to every path but those on the way to `path`, where it only makes
      sure that dictionaries stand. */
  ghost predicate Written(before: Content, after: Content, path: Path, value: Val, sub: Content) {
    forall q :: WrittenAt(before, after, path, value, sub, q)
  }

  predicate WrittenAt(before: Content, after: Content, path: Path, value: Val, sub: Content, q: Path) {
    if q.Root? then true
    else if q == path then Find(after, q) == Some(value)
    else if Under(path, q) then Find(after, q) == Find(sub, Strip(path, q))
    else if Under(q, path) then Find(after, q).Some? && Find(after, q).value.Nested?
    else Find(after, q) == Find(before, q)
  }

  /** Putting an empty dictionary where none stood shows only on the way to `path`. */
  lemma {:induction false} FreshStep(at: Layout, c: Content, path: Path, next: Path, one: Layout, nested: Dict)
    requires IsTree(at, c) && next.Sub? && next.parent in at && next !in at && Under(next, path)
    requires one == map[Root := nested]
    ensures var cOne: Content := map[Root := map[]];
            var after := Stored(c, next, Nested(nested), cOne);
            && (forall q: Path :: Apart(path, q) ==> Find(after, q) == Find(c, q))
            && next in Replaced(at, next, one) && Replaced(at, next, one)[next] == nested
  {
    var cOne: Content := map[Root := map[]];
    ReplacedAt(at, next, one, next);
    assert Strip(next, next) == Root;
    forall q: Path | Apart(path, q)
      ensures Find(Stored(c, next, Nested(nested), cOne), q) == Find(c, q)
    {
      FindAfterStore(at, c, next, Nested(nested), one, cOne, q);
      if Under(next, q) { NothingBelow(at, c, next, q); }
    }
  }

  lemma {:induction false} FinalStep(at: Layout, before: Content, c: Content, path: Path, value: Val, sub: Layout,
                                     cSub: Content)
    requires IsTree(at, c) && path.Sub? && path.parent in at && ValueTree(value, sub, cSub)
    requires forall q: Path :: Apart(path, q) ==> Find(c, q) == Find(before, q)
    ensures Written(before, Stored(c, path, value, cSub), path, value, cSub)
  {
    forall q
      ensures WrittenAt(before, Stored(c, path, value, cSub), path, value, cSub, q)
    {
      if q.Sub? {
        FindAfterStore(at, c, path, value, sub, cSub, q);
        if q != path && !Under(path, q) && Under(q, path) {
          AncestorsLaidOut(at, c, q, path.parent);
          NestedIsLaidOut(at, c, q);
        }
        assert !Under(path, q) && !Under(q, path) ==> Apart(path, q);
      }
    }
  }

  lemma {:induction false} FreshRoot(at: Layout, next: Path, one: Layout)
    requires next.Sub? && Root in at
    ensures Root in Replaced(at, next, one) && Replaced(at, next, one)[Root] == at[Root]
    ensures Replaced(at, next, one).Values <= at.Values + one.Values
  {
    ReplacedAt(at, next, one, Root);
    forall q | q in Replaced(at, next, one)
      ensures Replaced(at, next, one)[q] in at.Values || Replaced(at, next, one)[q] in one.Values
    {
      ReplacedAt(at, next, one, q);
    }
  }

  /** One step of the walk: the dictionary under `part`, made anew when none is there. */
  method Descend(cursor: Dict, part: string, ghost here: Path, ghost path: Path, ghost at: Layout)
    returns (next: Dict, ghost at': Layout)
    requires Tree(at) && here in at && at[here] == cursor && Under(Sub(here, part), path)
    modifies cursor
    ensures Tree(at') && at'[Root] == at[Root]
    ensures Sub(here, part) in at' && at'[Sub(here, part)] == next
    ensures forall d: Dict :: d in at'.Values ==> d in at.Values || fresh(d)
    ensures forall q: Path :: Apart(path, q) ==> Find(Contents(at'), q) == Find(old(Contents(at)), q)
  {
    ghost var below := Sub(here, part);
    NestedIsLaidOut(at, Contents(at), below);
    if part in cursor.items && cursor.items[part].Nested? {
      return cursor.items[part].dict, at;
    }
    next := new Dict();
    ghost var one := map[Root := next];
    assert Contents(one) == map[Root := map[]];
    FreshStep(at, Contents(at), path, below, one, next);
    FreshRoot(at, below, one);
    at' := Store(cursor, part, Nested(next), below, at, one);
  }

  /** Get after set returns the value; a key extending the written key reads into the new value;
      every other key that is not a prefix reads as before, even when an atom on the way had to
      give way to a dictionary. */
  method SetDotted(bucket: Dict, key: string, value: Val, ghost at: Layout, ghost sub: Layout)
    returns (ghost at': Layout)
    requires Tree(at) && at[Root] == bucket
    requires ValueTree(value, sub, Contents(sub)) && at.Values !! sub.Values
    modifies at.Values
    ensures Tree(at') && at'[Root] == bucket
    ensures Written(old(Contents(at)), Contents(at'), KeyPath(key), value, old(Contents(sub)))
    ensures forall d: Dict :: d in at'.Values ==> d in at.Values || d in sub.Values || fresh(d)
  {
    var parts := SplitDots(key, "");
    ghost var path := PathOf(parts);
    ghost var cSub := Contents(sub);
    at' := at;
    var cursor := bucket;
    var i := 0;
    while i < |parts| - 1
      invariant 0 <= i <= |parts| - 1
      invariant Tree(at') && at'[Root] == bucket
      invariant PathOf(parts[..i]) in at' && at'[PathOf(parts[..i])] == cursor
      invariant forall d: Dict :: d in at'.Values ==> d in at.Values || fresh(d)
      invariant Contents(sub) == cSub
      invariant forall q: Path :: Apart(path, q) ==> Find(Contents(at'), q) == Find(old(Contents(at)), q)
    {
      assert parts[..i + 1][..i] == parts[..i];
      PrefixUnder(parts, i + 1);
      cursor, at' := Descend(cursor, parts[i], PathOf(parts[..i]), path, at');
      i := i + 1;
    }
    assert path.parent == PathOf(parts[..i]) && path.key == parts[i];
    FinalStep(at', old(Contents(at)), Contents(at'), path, value, sub, cSub);
    FreshRoot(at', path, sub);
    at' := Store(cursor, parts[i], value, path, at', sub);
  }

  // ----- writing by parts --------------------------------------------------------------------------

  lemma {:induction false} PrefixIsUnder(a: seq<string>, b: seq<string>)
    ensures Under(PathOf(a), PathOf(b)) <==> a <= b
    ensures PathOf(a) == PathOf(b) <==> a == b
    ensures a <= b ==> Strip(PathOf(a), PathOf(b)) == PathOf(b[|a|..])
    decreases |b|
  {
    if b != [] {
      var n := |b| - 1;
      PrefixIsUnder(a, b[..n]);
      if a != [] { PrefixIsUnder(a[..|a| - 1], b[..n]); }
      assert b == b[..n] + [b[n]] && (a != [] ==> a == a[..|a| - 1] + [a[|a| - 1]]);
      if a <= b && a != b {
        assert a <= b[..n] && b[|a|..][..n - |a|] == b[..n][|a|..];
      }
    }
  }

  /** `_set_dotted`, read back by the parts of any key: the key itself gives the value, a longer
      key reads into the value, a shorter one gives a dictionary, and any other key is as before. */
  method SetParts(bucket: Dict, parts: seq<string>, value: Val, ghost at: Layout, ghost sub: Layout)
    returns (ghost at': Layout)
    requires Tree(at) && at[Root] == bucket && parts != [] && (forall p :: p in parts ==> '.' !in p)
    requires ValueTree(value, sub, Contents(sub)) && at.Values !! sub.Values
    modifies at.Values
    ensures Tree(at') && at'[Root] == bucket
    ensures forall q: seq<string> :: q != [] ==>
              WrittenParts(old(Contents(at)), Contents(at'), parts, value, old(Contents(sub)), q)
  {
    ghost var c, cSub := Contents(at), Contents(sub);
    at' := SetDotted(bucket, JoinDots(parts), value, at, sub);
    KeyOfParts(parts);
    forall q: seq<string> | q != []
      ensures WrittenParts(c, Contents(at'), parts, value, cSub, q)
    {
      PartsWritten(at, c, at', Contents(at'), parts, value, sub, cSub, q);
    }
  }

  ghost predicate WrittenParts(c: Content, after: Content, parts: seq<string>, value: Val, sub: Content, q: seq<string>)
    requires q != []
  {
    if q == parts then ReadParts(after, Root, q) == Some(value)
    else if parts <= q then ReadParts(after, Root, q) == ReadParts(sub, Root, q[|parts|..])
    else if q <= parts then ReadParts(after, Root, q).Some? && ReadParts(after, Root, q).value.Nested?
    else ReadParts(after, Root, q) == ReadParts(c, Root, q)
  }

  lemma {:induction false} PartsWritten(at: Layout, c: Content, at': Layout, after: Content, parts: seq<string>,
                                        value: Val, sub: Layout, cSub: Content, q: seq<string>)
    requires IsTree(at, c) && IsTree(at', after) && ValueTree(value, sub, cSub) && parts != [] && q != []
    requires Written(c, after, PathOf(parts), value, cSub)
    ensures WrittenParts(c, after, parts, value, cSub, q)
  {
    PrefixIsUnder(parts, q);
    PrefixIsUnder(q, parts);
    GraftRoot(PathOf(q));
    FindIsLookup(at, c, Root, q);
    FindIsLookup(at', after, Root, q);
    PathOfSub(q);
    assert WrittenAt(c, after, PathOf(parts), value, cSub, PathOf(q));
    if parts <= q && parts != q {
      var rest := q[|parts|..];
      GraftRoot(PathOf(rest));
      if value.Nested? { FindIsLookup(sub, cSub, Root, rest); }
    }
  }

  // ----- the two scopes ------------------------------------------------------------------------------

  /** Where a value is kept: for the whole run, or for one test case. */
  datatype Scope = Run | Case(tcId: string)

  predicate Parted(at: map<Scope, Layout>, s: Scope, u: Scope) {
    s in at && u in at && s != u ==> at[s].Values !! at[u].Values
  }

  /** A layout that grows only by dictionaries no scope had stays apart from the others. */
  lemma {:induction false} PartedAfter(before: map<Scope, Layout>, s: Scope, layout: Layout, repr: set<Dict>,
                                       after: map<Scope, Layout>)
    requires after == before[s := layout]
    requires forall u, v :: Parted(before, u, v)
    requires forall u :: u in before ==> before[u].Values <= repr
    requires forall d: Dict :: d in layout.Values ==> d !in repr || (s in before && d in before[s].Values)
    ensures forall u, v :: Parted(after, u, v)
  {
    forall u, v
      ensures Parted(after, u, v)
    {
      assert Parted(before, u, v);
    }
  }

  /** What the scopes hold; a test case without a bucket reads as an empty one. */
  function HeldIn(held: map<Scope, Content>, s: Scope): Content {
    if s in held then held[s] else map[Root := map[]]
  }

  /** After a write in one scope the key reads there, and every other scope reads as before. */
  lemma {:induction false} WriteShows(before: map<Scope, Content>, after: map<Scope, Content>, s: Scope, key: string,
                                      value: Val, sub: Content)
    requires s in after && (forall u :: u != s ==> HeldIn(after, u) == HeldIn(before, u))
    requires Written(HeldIn(before, s), after[s], KeyPath(key), value, sub)
    ensures Find(HeldIn(after, s), KeyPath(key)) == Some(value)
  {
    assert WrittenAt(HeldIn(before, s), after[s], KeyPath(key), value, sub, KeyPath(key));
  }

  class ScopedState {
    var run: Dict
    var tc: map<string, Dict>
    ghost var at: map<Scope, Layout>
    ghost var held: map<Scope, Content>
    ghost var repr: set<Dict>

    ghost predicate Valid()
      reads this, repr
    {
      && Run in at && at.Keys == held.Keys && (forall t :: Case(t) in at <==> t in tc)
      && (forall s :: Laid(s))
      && (forall s, u :: Parted(at, s, u))
    }

    function RootOf(s: Scope): Option<Dict>
      reads this
    {
      if s.Run? then Some(run) else if s.tcId in tc then Some(tc[s.tcId]) else None
    }

    /** `held` is what the dictionaries of the scope contain. */
    ghost predicate Laid(s: Scope)
      reads this, repr
    {
      s in at ==>
        && at[s].Values <= repr && Tree(at[s])
        && RootOf(s) == Some(at[s][Root])
        && s in held && held[s] == Contents(at[s])
    }

    ghost function Held(s: Scope): Content
      reads this
    {
      HeldIn(held, s)
    }

    constructor ()
      ensures Valid() && Held(Run) == map[Root := map[]] && tc == map[] && fresh(repr)
    {
      run := new Dict();
      tc := map[];
      new;
      at, repr := map[Run := map[Root := run]], {run};
      held := map[Run := map[Root := map[]]];
      assert Contents(at[Run]) == map[Root := map[]] && Tree(at[Run]);
      assert Laid(Run);
    }

    /** A key is provided when the test case's bucket or the run has it. */
    ghost predicate Provided(key: string, tcId: Option<string>)
      reads this
    {
      || (tcId.Some? && Find(Held(Case(tcId.value)), KeyPath(key)).Some?)
      || Find(Held(Run), KeyPath(key)).Some?
    }

    method HasProvide(key: string, tcId: Option<string>) returns (r: bool)
      requires Valid()
      ensures r <==> Provided(key, tcId)
    {
      if tcId.Some? && tcId.value in tc {
        assert Laid(Case(tcId.value));
        var local := GetDotted(tc[tcId.value], key, at[Case(tcId.value)]);
        if local.Some? { return true; }
      }
      assert Laid(Run);
      var global := GetDotted(run, key, at[Run]);
      r := global.Some?;
    }

    /** Takes over a layout for one scope when the others are in order. */
    ghost method Adopt(s: Scope, layout: Layout, content: Content)
      requires Run in at && at.Keys == held.Keys && (forall t :: Case(t) in at || Case(t) == s <==> t in tc)
      requires (forall u :: u != s ==> Laid(u)) && (forall u, v :: Parted(at, u, v))
      requires s in at ==> at[s].Values <= repr
      requires Tree(layout) && RootOf(s) == Some(layout[Root]) && content == Contents(layout)
      requires forall d: Dict :: d in layout.Values ==> d !in repr || (s in at && d in at[s].Values)
      modifies this`at, this`held, this`repr
      ensures Valid() && at == old(at)[s := layout] && repr == old(repr) + layout.Values
      ensures held == old(held)[s := content]
    {
      forall u | u in at
        ensures at[u].Values <= repr
      {
        assert u != s ==> Laid(u);
      }
      PartedAfter(at, s, layout, repr, at[s := layout]);
      at, held, repr := at[s := layout], held[s := content], repr + layout.Values;
      assert Laid(s);
      AllLaid(s);
    }

    /** A change to the layout of one scope leaves the others in order. */
    twostate lemma {:induction false} AllLaid(s: Scope)
      requires s in at && at == old(at)[s := at[s]] && s in held && held == old(held)[s := held[s]]
      requires old(repr) <= repr && run == old(run) && tc == old(tc)
      requires forall d: Dict :: d in old(repr) ==> d.items == old(d.items)
      requires forall u :: u != s ==> old(Laid(u))
      requires Laid(s)
      ensures forall u :: Laid(u)
    {
      forall u ensures Laid(u) {
        if u != s && u in at {
          assert old(Laid(u));
          assert Contents(at[u]) == old(Contents(at[u]));
        }
      }
    }

    /** A scope whose dictionaries are untouched reads as before. */
    twostate lemma {:induction false} Kept(s: Scope)
      requires old(Laid(s)) && s in old(at)
      requires at == old(at) && held == old(held) && run == old(run) && tc == old(tc) && repr == old(repr)
      requires forall d: Dict :: d in at[s].Values ==> d.items == old(d.items)
      ensures Laid(s)
    {
      assert Contents(at[s]) == old(Contents(at[s]));
    }

    twostate lemma {:induction false} OthersKept(s: Scope)
      requires s in old(at) && (forall u :: old(Laid(u))) && (forall u, v :: Parted(old(at), u, v))
      requires at == old(at) && held == old(held) && run == old(run) && tc == old(tc) && repr == old(repr)
      requires forall d: Dict :: d in old(repr) && d !in at[s].Values ==> d.items == old(d.items)
      ensures forall u :: u != s ==> Laid(u)
    {
      forall u | u != s && u in at
        ensures Laid(u)
      {
        assert old(Laid(u)) && Parted(at, s, u);
        Kept(u);
      }
    }

    /** Writing in one scope leaves the others alone. */
    method SetIn(s: Scope, bucket: Dict, key: string, value: Val, ghost sub: Layout)
      requires Valid() && s in at && Laid(s) && at[s][Root] == bucket
      requires ValueTree(value, sub, Contents(sub)) && repr !! sub.Values
      modifies repr, this`at, this`held, this`repr
      ensures Valid() && held == old(held)[s := Held(s)]
      ensures Written(old(Held(s)), Held(s), KeyPath(key), value, old(Contents(sub)))
    {
      ghost var before, cSub := Held(s), Contents(sub);
      assert before == Contents(at[s]);
      ghost var layout := SetDotted(bucket, key, value, at[s], sub);
      ghost var after := Contents(layout);
      assert Written(before, after, KeyPath(key), value, cSub);
      OthersKept(s);
      Adopt(s, layout, after);
    }

    method SetRun(key: string, value: Val, ghost sub: Layout)
      requires Valid() && ValueTree(value, sub, Contents(sub)) && repr !! sub.Values
      modifies repr, this`at, this`held, this`repr
      ensures Valid() && Written(old(Held(Run)), Held(Run), KeyPath(key), value, old(Contents(sub)))
      ensures forall u :: u != Run ==> Held(u) == old(Held(u))
      ensures forall t :: Provided(key, t)
    {
      assert Laid(Run);
      SetIn(Run, run, key, value, sub);
      WriteShows(old(held), held, Run, key, value, old(Contents(sub)));
    }

    /** Creates the bucket of a test case that has none. */
    method SetTc(tcId: string, key: string, value: Val, ghost sub: Layout)
      requires Valid() && ValueTree(value, sub, Contents(sub)) && repr !! sub.Values
      modifies repr, this`tc, this`at, this`held, this`repr
      ensures Valid() && tc.Keys == old(tc.Keys) + {tcId}
      ensures Written(old(Held(Case(tcId))), Held(Case(tcId)), KeyPath(key), value, old(Contents(sub)))
      ensures forall u :: u != Case(tcId) ==> Held(u) == old(Held(u))
      ensures Provided(key, Some(tcId))
    {
      EnsureBucket(tcId);
      SetBucket(tcId, key, value, sub);
    }

    method SetBucket(tcId: string, key: string, value: Val, ghost sub: Layout)
      requires Valid() && tcId in tc && ValueTree(value, sub, Contents(sub)) && repr !! sub.Values
      modifies repr, this`at, this`held, this`repr
      ensures Valid() && Written(old(Held(Case(tcId))), Held(Case(tcId)), KeyPath(key), value, old(Contents(sub)))
      ensures forall u :: u != Case(tcId) ==> Held(u) == old(Held(u))
      ensures Provided(key, Some(tcId))
    {
      assert Laid(Case(tcId));
      SetIn(Case(tcId), tc[tcId], key, value, sub);
      WriteShows(old(held), held, Case(tcId), key, value, old(Contents(sub)));
    }

    method EnsureBucket(tcId: string)
      requires Valid()
      modifies this`tc, this`at, this`held, this`repr
      ensures Valid() && tc.Keys == old(tc.Keys) + {tcId} && fresh(repr - old(repr))
      ensures forall u :: Held(u) == old(Held(u))
    {
      if tcId !in tc { MakeBucket(tcId); }
    }

    method MakeBucket(tcId: string)
      requires Valid() && tcId !in tc
      modifies this`tc, this`at, this`held, this`repr
      ensures Valid() && tc.Keys == old(tc.Keys) + {tcId} && fresh(repr - old(repr))
      ensures held == old(held)[Case(tcId) := map[Root := map[]]]
    {
      var bucket := new Dict();
      ghost var layout := map[Root := bucket];
      assert Contents(layout) == map[Root := map[]];
      tc := tc[tcId := bucket];
      OthersStillLaid(tcId);
      Adopt(Case(tcId), layout, map[Root := map[]]);
    }

    twostate lemma {:induction false} OthersStillLaid(tcId: string)
      requires old(Valid()) && tcId in tc && tc == old(tc)[tcId := tc[tcId]]
      requires at == old(at) && held == old(held) && run == old(run) && repr == old(repr)
      requires forall d: Dict :: d in repr ==> d.items == old(d.items)
      ensures forall u :: u != Case(tcId) ==> Laid(u)
    {
      forall u | u != Case(tcId) && u in at
        ensures Laid(u)
      {
        assert old(Laid(u)) && Contents(at[u]) == old(Contents(at[u]));
      }
    }
  }
}
