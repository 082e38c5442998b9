/** Link counts (kernel/sysfile.c): an inode's nlink is the number of entries that name it, "."
    apart, in directories that are themselves still linked. */
module LinkCounts {
  import opened Collections
  import opened FsBytes
  import opened FsDirs
  import opened Params

  datatype Node = Node(kind: nat, nlink: int, ents: seq<Dirent>)
  type Tree = seq<Node>

  const DOT: Name := [46]
  const DOTDOT: Name := [46, 46]
  const MAXLINK: nat := 0x7fff
  const MAXENTS: nat := MAXFILE * BSIZE / DESIZE   // the entries of the largest directory

  // Conversion to a short.
  function Short(x: int): (r: int)
    ensures -0x8000 <= r <= 0x7fff && (-0x8000 <= x <= 0x7fff ==> r == x)
  {
    (x + 0x8000) % 0x1_0000 - 0x8000
  }

  // ---------------------------------------------------------------- what counts as a link

  predicate Linked(t: Tree, d: nat)
    requires d < |t|
  {
    t[d].kind == T_DIR && t[d].nlink > 0
  }

  predicate IsRef(t: Tree, d: nat, k: nat, i: nat) {
    d < |t| && k < |t[d].ents| && Linked(t, d) && t[d].ents[k].inum == i && t[d].ents[k].name != DOT
  }

  // The places that link to inode i.
  ghost function Refs(t: Tree, i: nat): (r: set<(nat, nat)>)
    ensures forall d: nat, k: nat :: (d, k) in r <==> IsRef(t, d, k, i)
  {
    set d: nat, k: nat | d < |t| && k < |t[d].ents| && IsRef(t, d, k, i) :: (d, k)
  }

  // ---------------------------------------------------------------- the invariant

  ghost predicate Empty(ents: seq<Dirent>) { forall k :: 2 <= k < |ents| ==> !Live(ents[k]) }

  ghost predicate DirOk(t: Tree, d: nat)
    requires d < |t|
  {
    var ents := t[d].ents;
    && |ents| >= 2 && ents[0] == Dirent(d, DOT) && ents[1].name == DOTDOT && 0 < ents[1].inum < |t|
    && Distinct(ents) && (forall k :: 0 <= k < |ents| ==> ents[k].inum < |t|)
    && (t[d].nlink == 0 ==> Empty(ents))
  }

  ghost predicate NodeOk(t: Tree, i: nat)
    requires i < |t|
  {
    && 0 <= t[i].nlink <= MAXLINK && (t[i].kind == 0 ==> t[i].nlink == 0)
    && (if t[i].kind == T_DIR then i > 0 && DirOk(t, i) else t[i].ents == [])
  }

  ghost predicate Counted(t: Tree, i: nat)
    requires i < |t|
  {
    t[i].nlink == |Refs(t, i)|
  }

  // Entry k of d is one of the names that users see.
  predicate Named(t: Tree, d: nat, k: nat) {
    d < |t| && 2 <= k < |t[d].ents| && Linked(t, d) && Live(t[d].ents[k])
  }

  predicate Names(t: Tree, d: nat, k: nat, i: nat) { Named(t, d, k) && t[d].ents[k].inum == i }

  function DotDot(t: Tree, c: nat): (r: nat)
    requires c < |t|
  {
    if |t[c].ents| >= 2 then t[c].ents[1].inum else 0
  }

  // A directory is named once, by the directory its ".." names.
  ghost predicate ChildOk(t: Tree, d: nat, k: nat)
    requires Named(t, d, k)
  {
    var c := t[d].ents[k].inum;
    c < |t| && t[c].kind == T_DIR ==> c != ROOTINO && DotDot(t, c) == d
  }

  ghost predicate Once(t: Tree, d: nat, k: nat, k': nat)
    requires Named(t, d, k) && Named(t, d, k')
  {
    var c := t[d].ents[k].inum;
    c < |t| && t[c].kind == T_DIR && t[d].ents[k'].inum == c ==> k' == k
  }

  ghost predicate ParentOk(t: Tree, c: nat)
    requires c < |t|
  {
    Linked(t, c) && c != ROOTINO ==> exists k: nat :: Names(t, DotDot(t, c), k, c)
  }

  ghost predicate Shaped(t: Tree) {
    && (forall d, k :: Named(t, d, k) ==> ChildOk(t, d, k))
    && (forall d, k, k' :: Named(t, d, k) && Named(t, d, k') ==> Once(t, d, k, k'))
    && (forall c :: 0 <= c < |t| ==> ParentOk(t, c))
  }

  ghost predicate LinkInv(t: Tree) {
    && ROOTINO < |t| <= 0x1_0000 && (forall i :: 0 <= i < |t| ==> NodeOk(t, i)) && Shaped(t)
    && (forall i :: 0 < i < |t| ==> Counted(t, i))
    && Linked(t, ROOTINO) && DotDot(t, ROOTINO) == ROOTINO && t[0].kind == 0
  }

  // ---------------------------------------------------------------- changes

  function SetLink(t: Tree, i: nat, v: int): (r: Tree)
    requires i < |t|
  {
    t[i := t[i].(nlink := v)]
  }

  function SetEnt(t: Tree, d: nat, k: nat, e: Dirent): (r: Tree)
    requires d < |t| && k <= |t[d].ents|
  {
    t[d := t[d].(ents := Put(t[d].ents, k, e))]
  }

  const NONE: Dirent := Dirent(0, [])

  // The reserved places and the free ones.
  lemma FreeSlot(t: Tree, d: nat, k: nat)
    requires LinkInv(t) && d < |t| && t[d].kind == T_DIR && k <= |t[d].ents|
             && (k < |t[d].ents| ==> !Live(t[d].ents[k]))
    ensures k >= 2
  {
    assert NodeOk(t, d);
  }

  // A link to a file: the count and the entry.
  function Link(t: Tree, ip: nat, dp: nat, k: nat, name: Name): (r: Tree)
    requires ip < |t| && dp < |t| && k <= |t[dp].ents|
  {
    var t1 := SetLink(t, ip, Short(t[ip].nlink + 1));
    if k <= |t1[dp].ents| then SetEnt(t1, dp, k, Dirent(ip, name)) else t1
  }

  ghost predicate CanEnter(t: Tree, dp: nat, k: nat, name: Name) {
    && LinkInv(t) && dp < |t| && t[dp].kind == T_DIR && k <= |t[dp].ents| && (k < |t[dp].ents| ==> !Live(t[dp].ents[k]))
    && !HasName(t[dp].ents, name)
  }

  lemma LinkRefs(t: Tree, ip: nat, dp: nat, k: nat, name: Name, j: nat)
    requires CanEnter(t, dp, k, name) && 0 < ip < |t| && t[ip].kind != T_DIR && name != DOT && j > 0
    ensures Refs(Link(t, ip, dp, k, name), j) == Refs(t, j) + if j == ip && Linked(t, dp) then {(dp, k)} else {}
    ensures (dp, k) !in Refs(t, j)
  {
    var t' := Link(t, ip, dp, k, name);
    assert ip != dp;
    forall d: nat, m: nat ensures IsRef(t', d, m, j) <==>
      IsRef(t, d, m, j) || (j == ip && Linked(t, dp) && (d, m) == (dp, k)) {}
  }

  lemma LinkShaped(t: Tree, ip: nat, dp: nat, k: nat, name: Name)
    requires CanEnter(t, dp, k, name) && 0 < ip < |t| && t[ip].kind != T_DIR
    ensures Shaped(Link(t, ip, dp, k, name))
  {
    hide Refs, Distinct, HasName;
    FreeSlot(t, dp, k);
    var t' := Link(t, ip, dp, k, name);
    assert NodeOk(t, dp);
    forall d: nat, m: nat | Named(t', d, m) ensures ChildOk(t', d, m) && ((d, m) == (dp, k) || Named(t, d, m)) {
      if (d, m) != (dp, k) { assert Named(t, d, m) && ChildOk(t, d, m); }
    }
    forall d: nat, m: nat, m': nat | Named(t', d, m) && Named(t', d, m') ensures Once(t', d, m, m') {
      if (d, m) != (dp, k) && (d, m') != (dp, k) { assert Once(t, d, m, m'); }
    }
    forall c | 0 <= c < |t'| ensures ParentOk(t', c) {
      assert ParentOk(t, c);
      if Linked(t', c) && c != ROOTINO {
        var m: nat :| Names(t, DotDot(t, c), m, c);
        assert Names(t', DotDot(t', c), m, c);
      }
    }
  }

  lemma LinkNodes(t: Tree, ip: nat, dp: nat, k: nat, name: Name)
    requires CanEnter(t, dp, k, name) && 0 < ip < |t| && t[ip].kind !in {0, T_DIR} && Linked(t, dp)
             && t[ip].nlink < MAXLINK
    ensures forall i :: 0 <= i < |t| ==> NodeOk(Link(t, ip, dp, k, name), i)
  {
    hide Refs, HasName, Shaped, Distinct;
    FreeSlot(t, dp, k);
    assert NodeOk(t, dp);
    LinkIsInsert(t[dp].ents, k, ip, name);
    var t' := Link(t, ip, dp, k, name);
    forall i | 0 <= i < |t| ensures NodeOk(t', i) { assert NodeOk(t, i); }
  }

  // A link made in a removed directory, or past the largest short, breaks the count; any
  // other keeps the invariant.
  lemma LinkKeepsIff(t: Tree, ip: nat, dp: nat, k: nat, name: Name)
    requires CanEnter(t, dp, k, name) && 0 < ip < |t| && t[ip].kind !in {0, T_DIR}
    ensures LinkInv(Link(t, ip, dp, k, name)) <==> t[dp].nlink > 0 && t[ip].nlink < MAXLINK
  {
    hide Refs, Distinct, HasName, Shaped;
    var t' := Link(t, ip, dp, k, name);
    assert NodeOk(t, dp) && NodeOk(t, ip) && Counted(t, ip);
    assert name != DOT by { DotIsThere(t, dp, name); }
    LinkRefs(t, ip, dp, k, name, ip);
    if t[dp].nlink > 0 && t[ip].nlink < MAXLINK {
      LinkShaped(t, ip, dp, k, name);
      LinkNodes(t, ip, dp, k, name);
      forall j | 0 < j < |t'| ensures Counted(t', j) { assert Counted(t, j); LinkRefs(t, ip, dp, k, name, j); }
      FreeSlot(t, dp, k);
    } else if t[dp].nlink > 0 {
      assert !NodeOk(t', ip);
    } else {
      assert !Counted(t', ip);
    }
  }

  lemma DotIsThere(t: Tree, d: nat, name: Name)
    requires LinkInv(t) && d < |t| && t[d].kind == T_DIR && !HasName(t[d].ents, name)
    ensures name != DOT && name != DOTDOT
  {
    assert NodeOk(t, d);
    assert Live(t[d].ents[0]) && Live(t[d].ents[1]);
  }

  // ---------------------------------------------------------------- unlink

  function Unlink(t: Tree, dp: nat, k: nat): (r: Tree)
    requires dp < |t| && k < |t[dp].ents| && t[dp].ents[k].inum < |t|
  {
    var ip := t[dp].ents[k].inum;
    var t1 := SetEnt(t, dp, k, NONE);
    var t2 := if t[ip].kind == T_DIR then SetLink(t1, dp, Short(t1[dp].nlink - 1)) else t1;
    SetLink(t2, ip, Short(t2[ip].nlink - 1))
  }

  // Entry k of dp can be removed: it names a file or an empty directory.
  ghost predicate CanUnlink(t: Tree, dp: nat, k: nat) {
    && LinkInv(t) && dp < |t| && t[dp].kind == T_DIR && 2 <= k < |t[dp].ents| && Live(t[dp].ents[k])
    && t[dp].ents[k].inum < |t| && (t[t[dp].ents[k].inum].kind == T_DIR ==> Empty(t[t[dp].ents[k].inum].ents))
  }

  // Only a directory that is itself linked has entries to remove, and what they name is linked.
  lemma EntryLinked(t: Tree, dp: nat, k: nat)
    requires LinkInv(t) && dp < |t| && t[dp].kind == T_DIR && 2 <= k < |t[dp].ents| && Live(t[dp].ents[k])
    ensures Named(t, dp, k) && t[dp].ents[k].inum < |t| && t[dp].ents[k].name != DOT
    ensures var ip := t[dp].ents[k].inum; (dp, k) in Refs(t, ip) && 1 <= t[ip].nlink && t[ip].kind != 0 && NodeOk(t, ip)
  {
    assert NodeOk(t, dp);
    var ip := t[dp].ents[k].inum;
    assert Live(t[dp].ents[0]);
    assert IsRef(t, dp, k, ip);
    assert Counted(t, ip) && NodeOk(t, ip);
    assert |Refs(t, ip) - {(dp, k)}| == |Refs(t, ip)| - 1;
  }

  // A directory that is the parent of a linked one is not empty.
  lemma NotEmpty(t: Tree, d: nat)
    requires LinkInv(t) && d < |t| && Linked(t, d) && d != ROOTINO
    ensures DotDot(t, d) < |t| && !Empty(t[DotDot(t, d)].ents)
  {
    assert ParentOk(t, d);
    var m: nat :| Names(t, DotDot(t, d), m, d);
    assert Live(t[DotDot(t, d)].ents[m]);
  }

  // An empty linked directory is named by its one entry only.
  lemma EmptyNamedOnce(t: Tree, dp: nat, k: nat)
    requires CanUnlink(t, dp, k) && t[t[dp].ents[k].inum].kind == T_DIR
    ensures var c := t[dp].ents[k].inum;
            && Refs(t, c) == {(dp, k)} && t[c].nlink == 1 && c != dp && c != ROOTINO && DotDot(t, c) == dp
            && Linked(t, c)
  {
    EntryLinked(t, dp, k);
    var c := t[dp].ents[k].inum;
    assert ChildOk(t, dp, k) && NodeOk(t, c) && Counted(t, c);
    forall d: nat, m: nat | IsRef(t, d, m, c) ensures (d, m) == (dp, k) {
      assert NodeOk(t, d);
      if m >= 2 {
        assert Named(t, d, m) && ChildOk(t, d, m);
        assert Once(t, dp, k, m);
      } else if d != ROOTINO {
        NotEmpty(t, d);
      }
    }
    assert (dp, k) in Refs(t, c);
    assert Refs(t, c) == {(dp, k)};
  }

  lemma UnlinkRefs(t: Tree, dp: nat, k: nat, j: nat)
    requires CanUnlink(t, dp, k) && j > 0
    ensures var c := t[dp].ents[k].inum;
            Refs(Unlink(t, dp, k), j) == Refs(t, j) - {(dp, k)} - (if t[c].kind == T_DIR then {(c, 1)} else {})
  {
    EntryLinked(t, dp, k);
    var c := t[dp].ents[k].inum;
    assert NodeOk(t, dp) && NodeOk(t, c);
    var t' := Unlink(t, dp, k);
    if t[c].kind == T_DIR {
      EmptyNamedOnce(t, dp, k);
      DotDotCounts(t, c);
      assert !Linked(t', c);
      forall d: nat, m: nat ensures IsRef(t', d, m, j) <==>
        IsRef(t, d, m, j) && (d, m) != (dp, k) && (d, m) != (c, 1) {}
    } else {
      forall d: nat, m: nat ensures IsRef(t', d, m, j) <==> IsRef(t, d, m, j) && (d, m) != (dp, k) {}
    }
  }

  // The parent of a linked directory is linked, and more than once.
  lemma DotDotCounts(t: Tree, c: nat)
    requires LinkInv(t) && c < |t| && Linked(t, c) && c != ROOTINO
    ensures var p := DotDot(t, c); 0 < p < |t| && Linked(t, p) && (c, 1) in Refs(t, p) && t[p].nlink >= 2
  {
    assert NodeOk(t, c) && ParentOk(t, c);
    var p := DotDot(t, c);
    var m: nat :| Names(t, p, m, c);
    assert NodeOk(t, p) && Counted(t, p) && IsRef(t, c, 1, p);
    var other: (nat, nat);
    if p == ROOTINO {
      assert IsRef(t, p, 1, p);
      other := (p, 1);
    } else {
      assert ParentOk(t, p);
      var q := DotDot(t, p);
      var m': nat :| Names(t, q, m', p);
      assert NodeOk(t, q) && Live(t[q].ents[0]);
      assert IsRef(t, q, m', p);
      other := (q, m');
    }
    assert other != (c, 1) && {(c, 1), other} <= Refs(t, p);
    Two(Refs(t, p), (c, 1), other);
  }

  lemma Two<T>(s: set<T>, a: T, b: T)
    requires a in s && b in s && a != b
    ensures |s| >= 2
  {
    assert |s - {a} - {b}| == |s| - 2;
  }

  lemma UnlinkNodes(t: Tree, dp: nat, k: nat)
    requires CanUnlink(t, dp, k)
    ensures forall i :: 0 <= i < |t| ==> NodeOk(Unlink(t, dp, k), i)
  {
    hide Refs, HasName, Shaped, Distinct;
    EntryLinked(t, dp, k);
    assert NodeOk(t, dp);
    ClearIsRemove(t[dp].ents, k);
    var t' := Unlink(t, dp, k);
    var c := t[dp].ents[k].inum;
    if t[c].kind == T_DIR { EmptyNamedOnce(t, dp, k); DotDotCounts(t, c); }
    forall i | 0 <= i < |t| ensures NodeOk(t', i) { assert NodeOk(t, i); }
  }

  lemma UnlinkShaped(t: Tree, dp: nat, k: nat)
    requires CanUnlink(t, dp, k)
    ensures Shaped(Unlink(t, dp, k))
  {
    hide Refs, HasName, Distinct;
    EntryLinked(t, dp, k);
    assert NodeOk(t, dp);
    var t' := Unlink(t, dp, k);
    var ip := t[dp].ents[k].inum;
    if t[ip].kind == T_DIR { EmptyNamedOnce(t, dp, k); DotDotCounts(t, ip); }
    forall d: nat, m: nat | Named(t', d, m) ensures ChildOk(t', d, m) { assert Named(t, d, m) && ChildOk(t, d, m); }
    forall d: nat, m: nat, m': nat | Named(t', d, m) && Named(t', d, m') ensures Once(t', d, m, m') {
      assert Named(t, d, m) && Named(t, d, m') && Once(t, d, m, m');
    }
    forall c | 0 <= c < |t'| ensures ParentOk(t', c) {
      assert ParentOk(t, c);
      if Linked(t', c) && c != ROOTINO {
        var p := DotDot(t, c);
        var m: nat :| Names(t, p, m, c);
        assert p != ip || t[ip].kind != T_DIR by { NotEmpty(t, c); }
        assert (p, m) != (dp, k);
        assert Names(t', DotDot(t', c), m, c);
      }
    }
  }

  // Removing an entry keeps the invariant: a removed directory stops counting for its parent.
  lemma UnlinkKeeps(t: Tree, dp: nat, k: nat)
    requires CanUnlink(t, dp, k)
    ensures LinkInv(Unlink(t, dp, k))
  {
    hide Refs, HasName, Distinct, Shaped;
    EntryLinked(t, dp, k);
    assert NodeOk(t, dp);
    var t' := Unlink(t, dp, k);
    var c := t[dp].ents[k].inum;
    if t[c].kind == T_DIR { EmptyNamedOnce(t, dp, k); DotDotCounts(t, c); }
    UnlinkNodes(t, dp, k);
    UnlinkShaped(t, dp, k);
    forall j | 0 < j < |t'| ensures Counted(t', j) {
      assert Counted(t, j);
      UnlinkRefs(t, dp, k, j);
      UnlinkCount(t, dp, k, j);
    }
  }

  // How many links Unlink takes from inode j.
  function Lost(t: Tree, dp: nat, c: nat, j: nat): nat
    requires c < |t|
  {
    if j == c || (j == dp && t[c].kind == T_DIR) then 1 else 0
  }

  lemma UnlinkAt(t: Tree, dp: nat, k: nat, j: nat)
    requires CanUnlink(t, dp, k) && j < |t|
    ensures Unlink(t, dp, k)[j].nlink == t[j].nlink - Lost(t, dp, t[dp].ents[k].inum, j)
  {
    hide Refs, Shaped, Distinct, HasName;
    EntryLinked(t, dp, k);
    var c := t[dp].ents[k].inum;
    assert NodeOk(t, dp) && NodeOk(t, c);
    if t[c].kind == T_DIR { EmptyNamedOnce(t, dp, k); DotDotCounts(t, c); }
  }

  lemma UnlinkCount(t: Tree, dp: nat, k: nat, j: nat)
    requires CanUnlink(t, dp, k) && 0 < j < |t| && Counted(t, j)
    ensures Counted(Unlink(t, dp, k), j)
  {
    hide Refs, Unlink, Shaped, Distinct, HasName, NodeOk;
    EntryLinked(t, dp, k);
    UnlinkRefs(t, dp, k, j);
    UnlinkAt(t, dp, k, j);
    var c := t[dp].ents[k].inum;
    RefsExact(t, dp, k, j);
    if t[c].kind == T_DIR {
      EmptyNamedOnce(t, dp, k);
      DotDotCounts(t, c);
      RefsExact(t, c, 1, j);
    }
  }

  lemma RefsExact(t: Tree, d: nat, k: nat, j: nat)
    requires d < |t| && k < |t[d].ents| && IsRef(t, d, k, t[d].ents[k].inum)
    ensures (d, k) in Refs(t, j) <==> j == t[d].ents[k].inum
  {
  }

  // ---------------------------------------------------------------- create

  // A new inode i of the given kind, entered in dp; a directory gets its own two entries and
  // counts as a link to its parent.
  function Create(t: Tree, i: nat, kind: nat, dp: nat, k: nat, name: Name): (r: Tree)
    requires i < |t| && dp < |t| && k <= |t[dp].ents| && i != dp
  {
    var own := if kind == T_DIR then [Dirent(i, DOT), Dirent(dp, DOTDOT)] else [];
    var t1 := SetEnt(t[i := Node(kind, 1, own)], dp, k, Dirent(i, name));
    if kind == T_DIR then SetLink(t1, dp, Short(t1[dp].nlink + 1)) else t1
  }

  ghost predicate CanCreate(t: Tree, i: nat, kind: nat, dp: nat, k: nat, name: Name) {
    CanEnter(t, dp, k, name) && 0 < i < |t| && t[i].kind == 0 && kind != 0
  }

  lemma NoRefs(t: Tree, i: nat, d: nat, k: nat)
    requires LinkInv(t) && 0 < i < |t| && t[i].nlink == 0
    ensures Refs(t, i) == {} && !IsRef(t, d, k, i)
  {
    assert Counted(t, i);
    assert (d, k) !in Refs(t, i);
  }

  // What Create makes of each node.
  lemma CreateAt(t: Tree, i: nat, kind: nat, dp: nat, k: nat, name: Name)
    requires i < |t| && dp < |t| && k <= |t[dp].ents| && i != dp && (kind == T_DIR ==> 0 < t[dp].nlink < MAXLINK)
    ensures var t' := Create(t, i, kind, dp, k, name);
            && |t'| == |t| && (forall j :: 0 <= j < |t| && j != i && j != dp ==> t'[j] == t[j])
            && t'[i].kind == kind && t'[i].nlink == 1
            && (if kind == T_DIR then t'[i].ents == [Dirent(i, DOT), Dirent(dp, DOTDOT)] else t'[i].ents == [])
            && t'[dp] == Node(t[dp].kind, t[dp].nlink + (if kind == T_DIR then 1 else 0),
                              Put(t[dp].ents, k, Dirent(i, name)))
  {
  }

  lemma CreateRefs(t: Tree, i: nat, kind: nat, dp: nat, k: nat, name: Name, j: nat)
    requires CanCreate(t, i, kind, dp, k, name) && j > 0 && (kind == T_DIR ==> 0 < t[dp].nlink < MAXLINK)
    ensures Refs(Create(t, i, kind, dp, k, name), j) ==
            Refs(t, j) + (if j == i && t[dp].nlink > 0 then {(dp, k)}
                          else {}) + (if j == dp && kind == T_DIR then {(i, 1)} else {})
    ensures (dp, k) !in Refs(t, j) && (i, 1) !in Refs(t, j)
  {
    hide Create, Distinct, Shaped, HasName;
    FreeSlot(t, dp, k);
    DotIsThere(t, dp, name);
    assert NodeOk(t, i) && NodeOk(t, dp);
    CreateAt(t, i, kind, dp, k, name);
    var t' := Create(t, i, kind, dp, k, name);
    forall d: nat, m: nat ensures IsRef(t', d, m, j) <==>
      IsRef(t, d, m, j) || (j == i && t[dp].nlink > 0 && (d, m) == (dp, k))
          || (j == dp && kind == T_DIR && (d, m) == (i, 1))
    {}
  }

  lemma CreateNodes(t: Tree, i: nat, kind: nat, dp: nat, k: nat, name: Name)
    requires CanCreate(t, i, kind, dp, k, name) && t[dp].nlink > 0 && (kind == T_DIR ==> t[dp].nlink < MAXLINK)
    ensures forall j :: 0 <= j < |t| ==> NodeOk(Create(t, i, kind, dp, k, name), j)
  {
    hide Create, Refs, HasName, Shaped, Distinct;
    FreeSlot(t, dp, k);
    assert NodeOk(t, dp) && NodeOk(t, i);
    LinkIsInsert(t[dp].ents, k, i, name);
    DotsDiffer(i, dp);
    CreateAt(t, i, kind, dp, k, name);
    var t' := Create(t, i, kind, dp, k, name);
    forall j | 0 <= j < |t| ensures NodeOk(t', j) { assert NodeOk(t, j); }
  }

  lemma DotsDiffer(i: nat, p: nat)
    ensures Distinct([Dirent(i, DOT), Dirent(p, DOTDOT)])
  {
  }

  lemma CreateParent(t: Tree, i: nat, kind: nat, dp: nat, k: nat, name: Name, c: nat)
    requires CanCreate(t, i, kind, dp, k, name) && t[dp].nlink > 0 && (kind == T_DIR ==> t[dp].nlink < MAXLINK)
             && c < |t|
    ensures ParentOk(Create(t, i, kind, dp, k, name), c)
  {
    hide Create, Refs, HasName, Distinct;
    FreeSlot(t, dp, k);
    assert NodeOk(t, dp) && NodeOk(t, i) && NodeOk(t, c) && ParentOk(t, c);
    CreateAt(t, i, kind, dp, k, name);
    var t' := Create(t, i, kind, dp, k, name);
    if c == i {
      assert Names(t', dp, k, i) && (kind == T_DIR ==> DotDot(t', i) == dp);
    } else if Linked(t', c) && c != ROOTINO {
      var m: nat :| Names(t, DotDot(t, c), m, c);
      assert Names(t', DotDot(t', c), m, c);
    }
  }

  lemma CreateShaped(t: Tree, i: nat, kind: nat, dp: nat, k: nat, name: Name)
    requires CanCreate(t, i, kind, dp, k, name) && t[dp].nlink > 0 && (kind == T_DIR ==> t[dp].nlink < MAXLINK)
    ensures Shaped(Create(t, i, kind, dp, k, name))
  {
    hide Create, Refs, HasName, Distinct;
    FreeSlot(t, dp, k);
    assert NodeOk(t, dp) && NodeOk(t, i);
    CreateAt(t, i, kind, dp, k, name);
    var t' := Create(t, i, kind, dp, k, name);
    forall d: nat, m: nat | Named(t, d, m) ensures t[d].ents[m].inum != i {
      EntryLinked(t, d, m);
    }
    forall d: nat, m: nat | Named(t', d, m) ensures ((d, m) == (dp, k) || Named(t, d, m)) && ChildOk(t', d, m) {
      if (d, m) != (dp, k) { assert Named(t, d, m) && ChildOk(t, d, m); }
    }
    forall d: nat, m: nat, m': nat | Named(t', d, m) && Named(t', d, m') ensures Once(t', d, m, m') {
      if (d, m) != (dp, k) && (d, m') != (dp, k) { assert Once(t, d, m, m'); }
    }
    forall c | 0 <= c < |t'| ensures ParentOk(t', c) { CreateParent(t, i, kind, dp, k, name, c); }
  }

  // Creating in a removed directory leaves an inode that no linked directory names.
  lemma CreateKeepsIff(t: Tree, i: nat, kind: nat, dp: nat, k: nat, name: Name)
    requires CanCreate(t, i, kind, dp, k, name)
    ensures LinkInv(Create(t, i, kind, dp, k, name)) <==> t[dp].nlink > 0 && (kind == T_DIR ==> t[dp].nlink < MAXLINK)
  {
    hide Refs, Distinct, HasName, Shaped, Create;
    var t' := Create(t, i, kind, dp, k, name);
    assert NodeOk(t, dp) && NodeOk(t, i);
    FreeSlot(t, dp, k);
    if t[dp].nlink > 0 && (kind == T_DIR ==> t[dp].nlink < MAXLINK) {
      CreateAt(t, i, kind, dp, k, name);
      CreateShaped(t, i, kind, dp, k, name);
      CreateNodes(t, i, kind, dp, k, name);
      forall j | 0 < j < |t'| ensures Counted(t', j) { assert Counted(t, j); CreateRefs(t, i, kind, dp, k, name, j); }
    } else if t[dp].nlink > 0 {
      CreateTooMany(t, i, dp, k, name);
    } else {
      CreateLost(t, i, kind, dp, k, name);
    }
  }

  lemma CreateTooMany(t: Tree, i: nat, dp: nat, k: nat, name: Name)
    requires CanCreate(t, i, T_DIR, dp, k, name) && t[dp].nlink == MAXLINK
    ensures !LinkInv(Create(t, i, T_DIR, dp, k, name))
  {
    hide Refs, Distinct, HasName, Shaped;
    assert !NodeOk(Create(t, i, T_DIR, dp, k, name), dp);
  }

  lemma CreateLost(t: Tree, i: nat, kind: nat, dp: nat, k: nat, name: Name)
    requires CanCreate(t, i, kind, dp, k, name) && t[dp].nlink == 0
    ensures !LinkInv(Create(t, i, kind, dp, k, name))
  {
    assert NodeOk(t, dp) && NodeOk(t, i);
    FreeSlot(t, dp, k);
    var t' := Create(t, i, kind, dp, k, name);
    if kind == T_DIR {
      // dp comes back to life without a name, with one link where the parent of a linked directory has
      // two; the count that is wrong is that of its own parent, for which its ".." entry counts again
      assert dp != ROOTINO && t'[dp].nlink == 1;
      if LinkInv(t') {
        assert Linked(t', i) && DotDot(t', i) == dp;
        DotDotCounts(t', i);
      }
    } else {
      forall d: nat, m: nat ensures !IsRef(t', d, m, i) { NoRefs(t, i, d, m); }
      assert Refs(t', i) == {};
      assert !Counted(t', i);
    }
  }

  // ---------------------------------------------------------------- iput frees an inode

  function Free(t: Tree, i: nat): (r: Tree)
    requires i < |t|
  {
    t[i := Node(0, 0, [])]
  }

  lemma FreeKeeps(t: Tree, i: nat)
    requires LinkInv(t) && 0 < i < |t| && t[i].nlink == 0
    ensures LinkInv(Free(t, i))
  {
    hide Distinct, HasName;
    var t' := Free(t, i);
    forall j: nat | j > 0 ensures Refs(t', j) == Refs(t, j) {
      forall d: nat, m: nat ensures IsRef(t', d, m, j) <==> IsRef(t, d, m, j) {}
    }
    forall j | 0 <= j < |t| ensures NodeOk(t', j) { assert NodeOk(t, j); }
    forall j | 0 < j < |t| ensures Counted(t', j) { assert Counted(t, j); }
    FreeShaped(t, i);
  }

  lemma FreeShaped(t: Tree, i: nat)
    requires LinkInv(t) && 0 < i < |t| && t[i].nlink == 0
    ensures Shaped(Free(t, i))
  {
    hide Refs, Distinct, HasName;
    var t' := Free(t, i);
    forall d: nat, m: nat | Named(t', d, m) ensures ChildOk(t', d, m) {
      assert Named(t, d, m) && ChildOk(t, d, m);
      EntryLinked(t, d, m);
    }
    forall d: nat, m: nat, m': nat | Named(t', d, m) && Named(t', d, m') ensures Once(t', d, m, m') {
      assert Once(t, d, m, m');
    }
    forall c | 0 <= c < |t'| ensures ParentOk(t', c) {
      if Linked(t', c) && c != ROOTINO {
        assert ParentOk(t, c);
        var m: nat :| Names(t, DotDot(t, c), m, c);
        assert Names(t', DotDot(t', c), m, c);
      }
    }
  }

  // ---------------------------------------------------------------- a removed directory

  // The root, a directory that was removed while still in use, and a free inode.
  const REMOVED: Tree := [Node(0, 0, []), Node(T_DIR, 1, [Dirent(1, DOT), Dirent(1, DOTDOT)]),
                          Node(T_DIR, 0, [Dirent(2, DOT), Dirent(1, DOTDOT)]), Node(0, 0, [])]

  // A file created in the removed directory has a link count of one and no name.
  lemma CreateInRemoved()
    ensures LinkInv(REMOVED) && CanCreate(REMOVED, 3, 2, 2, 2, [97])
    ensures !LinkInv(Create(REMOVED, 3, 2, 2, 2, [97]))
  {
    RemovedOk();
    CreateKeepsIff(REMOVED, 3, 2, 2, 2, [97]);
  }

  lemma RemovedOk()
    ensures LinkInv(REMOVED)
  {
    var t := REMOVED;
    forall i: nat | i > 0 ensures Refs(t, i) == if i == 1 then {(1, 1)} else {} {
      forall d: nat, k: nat ensures IsRef(t, d, k, i) <==> i == 1 && (d, k) == (1, 1) {}
    }
    forall i | 0 <= i < |t| ensures NodeOk(t, i) {}
    forall i | 0 < i < |t| ensures Counted(t, i) {}
    assert forall d: nat, k: nat :: !Named(t, d, k);
    assert Shaped(t);
  }

  // ---------------------------------------------------------------- a removed directory's parent

  // The root and two free inodes.
  const BARE: Tree := [Node(0, 0, []), Node(T_DIR, 1, [Dirent(1, DOT), Dirent(1, DOTDOT)]), Node(0, 0, []),
                       Node(0, 0, [])]

  lemma BareOk()
    ensures LinkInv(BARE)
  {
    var t := BARE;
    forall i: nat | i > 0 ensures Refs(t, i) == if i == 1 then {(1, 1)} else {} {
      forall d: nat, k: nat ensures IsRef(t, d, k, i) <==> i == 1 && (d, k) == (1, 1) {}
    }
    forall i | 0 <= i < |t| ensures NodeOk(t, i) {}
    forall i | 0 < i < |t| ensures Counted(t, i) {}
    assert forall d: nat, k: nat :: !Named(t, d, k);
    assert Shaped(t);
  }

  // mkdir a; mkdir a/b; rmdir a/b, whose inode 3 is still in use; rmdir a.
  function Orphaned(): Tree {
    var a := Create(BARE, 2, T_DIR, 1, 2, [97]);
    var b := Create(a, 3, T_DIR, 2, 2, [98]);
    Free(Unlink(Unlink(b, 2, 2), 1, 2), 2)
  }

  // Each of these calls keeps the invariant, and in the end the ".." of inode 3 names a free inode.
  lemma OrphanReached()
    ensures LinkInv(Orphaned()) && |Orphaned()| == 4
    ensures Orphaned()[3] == Node(T_DIR, 0, [Dirent(3, DOT), Dirent(2, DOTDOT)]) && Orphaned()[2].kind == 0
  {
    hide LinkInv, Refs;
    BareOk();
    assert CanCreate(BARE, 2, T_DIR, 1, 2, [97]);
    CreateKeepsIff(BARE, 2, T_DIR, 1, 2, [97]);
    var a := Create(BARE, 2, T_DIR, 1, 2, [97]);
    assert CanCreate(a, 3, T_DIR, 2, 2, [98]);
    CreateKeepsIff(a, 3, T_DIR, 2, 2, [98]);
    var b := Create(a, 3, T_DIR, 2, 2, [98]);
    assert CanUnlink(b, 2, 2);
    UnlinkKeeps(b, 2, 2);
    var c := Unlink(b, 2, 2);
    assert CanUnlink(c, 1, 2);
    UnlinkKeeps(c, 1, 2);
    FreeKeeps(Unlink(c, 1, 2), 2);
  }

  // ---------------------------------------------------------------- how large a count can be

  // The places that can link to directory d: its own name, and the ".." of each directory it names.
  ghost function Linkers(t: Tree, d: nat): (r: seq<(nat, nat)>)
    requires d < |t| && |t[d].ents| >= 2
    ensures |r| == |t[d].ents| - 1
  {
    [NameOf(t, d)] + seq(|t[d].ents| - 2, k requires 0 <= k < |t[d].ents| - 2 => (t[d].ents[k + 2].inum, 1))
  }

  // The entry that names d, in the directory that its ".." names.
  ghost function NameOf(t: Tree, d: nat): (r: (nat, nat))
    requires d < |t|
  {
    if exists k: nat :: Names(t, DotDot(t, d), k, d) then
                          (DotDot(t, d), var k: nat :| Names(t, DotDot(t, d), k, d); k) else (d, 1)
  }

  lemma RefIsLinker(t: Tree, d: nat, p: nat, k: nat)
    requires LinkInv(t) && d < |t| && t[d].kind == T_DIR && IsRef(t, p, k, d) && |t[d].ents| >= 2
    ensures (p, k) in Linkers(t, d)
  {
    hide Refs, Distinct, HasName;
    assert NodeOk(t, d) && NodeOk(t, p);
    if k >= 2 {
      assert Named(t, p, k) && ChildOk(t, p, k);
      assert Names(t, DotDot(t, d), k, d);
      assert Once(t, p, k, NameOf(t, d).1);
      assert Linkers(t, d)[0] == (p, k);
    } else if p == ROOTINO {
      RootHasNoName(t);
      assert Linkers(t, d)[0] == (p, k);
    } else {
      assert ParentOk(t, p) && DotDot(t, p) == d;
      var m: nat :| Names(t, d, m, p);
      assert Linkers(t, d)[m - 1] == (p, 1);
    }
  }

  lemma RootHasNoName(t: Tree)
    requires LinkInv(t)
    ensures NameOf(t, ROOTINO) == (ROOTINO, 1)
  {
    hide Refs, Distinct, HasName;
    forall k: nat ensures !Names(t, DotDot(t, ROOTINO), k, ROOTINO) {
      if Named(t, DotDot(t, ROOTINO), k) { assert ChildOk(t, DotDot(t, ROOTINO), k); }
    }
  }

  // The link count of a directory is less than the number of its entries.
  lemma DirLinksBounded(t: Tree, d: nat)
    requires LinkInv(t) && d < |t| && t[d].kind == T_DIR
    ensures t[d].nlink < |t[d].ents|
  {
    hide Refs, Linkers, Shaped;
    assert NodeOk(t, d) && Counted(t, d);
    forall r | r in Refs(t, d) ensures r in Elements(Linkers(t, d)) {
      assert IsRef(t, r.0, r.1, d);
      RefIsLinker(t, d, r.0, r.1);
    }
    SubsetSize(Refs(t, d), Elements(Linkers(t, d)));
    SetOfSeq(Linkers(t, d));
  }

  // ---------------------------------------------------------------- the largest count

  // A different name for each number.
  function Numbered(n: nat): (r: Name)
    requires n <= MAXLINK
    ensures NameOk(r) && |r| == 3 && r[0] == 97
    ensures r[1] == 1 + n / 200 && r[2] == 1 + n % 200
  {
    [97, 1 + n / 200, 1 + n % 200]
  }

  lemma NumbersDiffer(m: nat, n: nat)
    requires m <= MAXLINK && n <= MAXLINK && Numbered(m) == Numbered(n)
    ensures m == n
  {
    assert m == 200 * (m / 200) + m % 200;
    assert n == 200 * (n / 200) + n % 200;
  }

  // As many names as one directory can hold, before the next is used.
  const FULL: nat := 17000

  // File 2 with n + 1 links: the first FULL in the root, the others in directory 3.
  function Popular(n: nat): (t: Tree)
    requires n < MAXLINK
    ensures |t| == 4
    decreases n
  {
    if n == 0 then Create(Create(BARE, 3, T_DIR, 1, 2, [98]), 2, T_FILE, 1, 3, Numbered(0))
    else
      var t := Popular(n - 1);
      var dp := if n < FULL then 1 else 3;
      if |t| == 4 then Link(t, 2, dp, |t[dp].ents|, Numbered(n)) else t
  }

  // The entries for names from .. to - 1 of file 2.
  function Aliases(from: nat, to: nat): (r: seq<Dirent>)
    requires from <= to <= MAXLINK
    ensures |r| == to - from && forall k :: 0 <= k < |r| ==> r[k] == Dirent(2, Numbered(from + k))
  {
    seq(to - from, k requires 0 <= k < to - from => Dirent(2, Numbered(from + k)))
  }

  predicate Loaded(t: Tree, n: nat)
    requires n < MAXLINK
  {
    && |t| == 4 && t[0] == Node(0, 0, []) && t[2] == Node(T_FILE, n + 1, [])
    && t[1] == Node(T_DIR, 2, [Dirent(1, DOT), Dirent(1, DOTDOT), Dirent(3, [98])] + Aliases(0, Min(n + 1, FULL)))
    && t[3] == Node(T_DIR, 1, [Dirent(3, DOT), Dirent(1, DOTDOT)] + Aliases(FULL, Max(n + 1, FULL)))
  }

  lemma {:induction false} PopularOk(n: nat)
    requires n < MAXLINK
    ensures LinkInv(Popular(n)) && Loaded(Popular(n), n)
  {
    hide LinkInv, Refs;
    if n == 0 {
      PopularStart();
    } else {
      PopularOk(n - 1);
      var t := Popular(n - 1);
      var dp := if n < FULL then 1 else 3;
      NewName(t, n, dp);
      LinkKeepsIff(t, 2, dp, |t[dp].ents|, Numbered(n));
    }
  }

  lemma PopularStart()
    ensures LinkInv(Popular(0)) && Loaded(Popular(0), 0)
  {
    hide LinkInv, Refs;
    BareOk();
    assert CanCreate(BARE, 3, T_DIR, 1, 2, [98]);
    CreateKeepsIff(BARE, 3, T_DIR, 1, 2, [98]);
    var t := Create(BARE, 3, T_DIR, 1, 2, [98]);
    assert CanCreate(t, 2, T_FILE, 1, 3, Numbered(0));
    CreateKeepsIff(t, 2, T_FILE, 1, 3, Numbered(0));
  }

  lemma NewName(t: Tree, n: nat, dp: nat)
    requires 0 < n < MAXLINK && Loaded(t, n - 1) && dp == if n < FULL then 1 else 3
    ensures !HasName(t[dp].ents, Numbered(n))
    ensures Loaded(Link(t, 2, dp, |t[dp].ents|, Numbered(n)), n)
  {
    forall k | 0 <= k < |t[dp].ents| ensures t[dp].ents[k].name != Numbered(n) {
      var j := if dp == 1 then k - 3 else FULL + k - 2;
      if k >= (if dp == 1 then 3 else 2) && t[dp].ents[k].name == Numbered(n) { NumbersDiffer(j, n); }
    }
    assert Aliases(0, Min(n + 1, FULL)) == if n < FULL then Aliases(0, n) + [Dirent(2, Numbered(n))]
           else Aliases(0, Min(n, FULL));
    assert Aliases(FULL, Max(n + 1, FULL)) == if n < FULL then [] else Aliases(FULL, n) + [Dirent(2, Numbered(n))];
  }

  // A file can have the largest count although no directory is full; one more link then breaks it.
  lemma LargestCount()
    ensures LinkInv(Popular(MAXLINK - 1)) && Popular(MAXLINK - 1)[2].nlink == MAXLINK
    ensures |Popular(MAXLINK - 1)[1].ents| < MAXENTS && |Popular(MAXLINK - 1)[3].ents| < MAXENTS
    ensures CanEnter(Popular(MAXLINK - 1), 3, |Popular(MAXLINK - 1)[3].ents|, [99])
    ensures !LinkInv(Link(Popular(MAXLINK - 1), 2, 3, |Popular(MAXLINK - 1)[3].ents|, [99]))
  {
    hide LinkInv, Refs;
    PopularOk(MAXLINK - 1);
    hide Popular;
    var t := Popular(MAXLINK - 1);
    forall k | 0 <= k < |t[3].ents| ensures t[3].ents[k].name != [99] {}
    LinkKeepsIff(t, 2, 3, |t[3].ents|, [99]);
  }
}
