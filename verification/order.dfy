/**
 * How readCategoryDir and parseExamples (cmd/nbe/parse.go) order what they
 * read: the sub-directories with something in them are collected in a map
 * keyed by name, the names listed in the meta file are appended first, in
 * the meta file's order, and the rest follow in map iteration order. The
 * directory reads themselves are inputs here: a listing whose entries carry
 * the value read for them and how many examples (or clients) it holds.
 */
module Order {

  /** A directory listing entry with the value read for it and its number of examples or clients. */
  datatype DirEntry<V> = DirEntry(name: string, isDir: bool, entry: V, size: nat)

  predicate Distinct<T(==)>(s: seq<T>) {
    forall i, j | 0 <= i < j < |s| :: s[i] != s[j]
  }

  /** The names a directory listing gives: fs.ReadDir lists every name once. */
  predicate DistinctNames<V>(dirs: seq<DirEntry<V>>) {
    forall i, j | 0 <= i < j < |dirs| :: dirs[i].name != dirs[j].name
  }

  /** The directories that are kept: those holding at least one example or client. */
  predicate Kept<V>(d: DirEntry<V>) {
    d.isDir && d.size > 0
  }

  /**
   * The collecting loop: non-directories are skipped and a directory is put
   * in the map under its name only when it holds something.
   */
  method Collect<V>(dirs: seq<DirEntry<V>>) returns (found: map<string, V>)
    requires DistinctNames(dirs)
    ensures found.Keys == set i | 0 <= i < |dirs| && Kept(dirs[i]) :: dirs[i].name
    ensures forall i | 0 <= i < |dirs| && Kept(dirs[i]) :: found[dirs[i].name] == dirs[i].entry
  {
    found := map[];
    for i := 0 to |dirs|
      invariant found.Keys == set j | 0 <= j < i && Kept(dirs[j]) :: dirs[j].name
      invariant forall j | 0 <= j < i && Kept(dirs[j]) :: found[dirs[j].name] == dirs[j].entry
    {
      var e := dirs[i];
      if !e.isDir {
        continue;
      }
      if e.size > 0 {
        found := found[e.name := e.entry];
      }
    }
  }

  /**
   * The names the meta file puts first: each listed name that was found, at
   * its first mention; names not found and repeated names are skipped.
   */
  function MetaOrder(meta: seq<string>, keys: set<string>): seq<string> {
    if |meta| == 0 then []
    else
      var p := MetaOrder(meta[..|meta| - 1], keys);
      var n := meta[|meta| - 1];
      if n in keys && n !in p then p + [n] else p
  }

  /** The index of the first mention of `n` in `meta`. */
  function FirstMention(meta: seq<string>, n: string): (r: nat)
    requires n in meta
    ensures r < |meta| && meta[r] == n && n !in meta[..r]
  {
    if meta[0] == n then 0 else 1 + FirstMention(meta[1..], n)
  }

  /** MetaOrder lists every found name the meta file mentions, once each, and nothing else. */
  lemma {:induction false} MetaOrderMembers(meta: seq<string>, keys: set<string>)
    ensures Distinct(MetaOrder(meta, keys))
    ensures forall n :: n in MetaOrder(meta, keys) <==> n in keys && n in meta
  {
    if |meta| > 0 {
      var init := meta[..|meta| - 1];
      MetaOrderMembers(init, keys);
      assert meta == init + [meta[|meta| - 1]];
    }
  }

  /** MetaOrder lists the names in the order of their first mention in the meta file. */
  lemma {:induction false} MetaOrderFirst(meta: seq<string>, keys: set<string>)
    ensures forall i, j | 0 <= i < j < |MetaOrder(meta, keys)| && MetaOrder(meta, keys)[i] in meta && MetaOrder(meta, keys)[j] in meta ::
      FirstMention(meta, MetaOrder(meta, keys)[i]) < FirstMention(meta, MetaOrder(meta, keys)[j])
  {
    MetaOrderMembers(meta, keys);
    if |meta| > 0 {
      var init := meta[..|meta| - 1];
      var p := MetaOrder(init, keys);
      var n := meta[|meta| - 1];
      MetaOrderFirst(init, keys);
      MetaOrderMembers(init, keys);
      assert meta == init + [n];
      forall m | m in init ensures FirstMention(meta, m) == FirstMention(init, m) {
        FirstMentionPrefix(init, n, m);
      }
      if n in keys && n !in p {
        assert n !in init;
        assert FirstMention(meta, n) == |init| by {
          assert n !in meta[..|init|];
        }
        forall i | 0 <= i < |p| ensures FirstMention(meta, p[i]) < |init| {
          assert p[i] in init;
        }
      }
    }
  }

  lemma FirstMentionPrefix(init: seq<string>, n: string, m: string)
    requires m in init
    ensures FirstMention(init + [n], m) == FirstMention(init, m)
  {
    if init[0] != m {
      assert (init + [n])[1..] == init[1..] + [n];
      FirstMentionPrefix(init[1..], n, m);
    }
  }

  /**
   * The first ordering loop: each name the meta file lists is taken while it
   * is still among the found names, and then deleted from them.
   */
  method TakeListed<V>(meta: seq<string>, found: map<string, V>) returns (names: seq<string>, ordered: seq<V>, rest: map<string, V>)
    ensures names == MetaOrder(meta, found.Keys)
    ensures |ordered| == |names| && forall j | 0 <= j < |names| :: names[j] in found && ordered[j] == found[names[j]]
    ensures forall n :: n in rest <==> n in found && n !in names
    ensures forall n | n in rest :: rest[n] == found[n]
  {
    rest := found;
    names, ordered := [], [];
    for i := 0 to |meta|
      invariant names == MetaOrder(meta[..i], found.Keys)
      invariant |ordered| == |names| && forall j | 0 <= j < |names| :: names[j] in found && ordered[j] == found[names[j]]
      invariant forall n :: n in rest <==> n in found && n !in names
      invariant forall n | n in rest :: rest[n] == found[n]
    {
      assert meta[..i + 1][..i] == meta[..i];
      var name := meta[i];
      if name !in rest {
        continue;
      }
      names, ordered := names + [name], ordered + [rest[name]];
      rest := rest - {name};
    }
    assert meta[..|meta|] == meta;
  }

  /**
   * The second ordering loop: every name still left is appended, in map
   * iteration order, which Go leaves unspecified.
   */
  method AppendRest<V>(ghost found: map<string, V>, lead: seq<string>, leadValues: seq<V>, rest: map<string, V>)
    returns (names: seq<string>, ordered: seq<V>)
    requires Distinct(lead)
    requires |leadValues| == |lead| && forall j | 0 <= j < |lead| :: lead[j] in found && leadValues[j] == found[lead[j]]
    requires forall n :: n in rest <==> n in found && n !in lead
    requires forall n | n in rest :: rest[n] == found[n]
    ensures |lead| <= |names| && names[..|lead|] == lead
    ensures Distinct(names) && (forall n :: n in names <==> n in found)
    ensures |ordered| == |names| && forall j | 0 <= j < |names| :: names[j] in found && ordered[j] == found[names[j]]
    ensures forall j | |lead| <= j < |names| :: names[j] in rest
  {
    names, ordered := lead, leadValues;
    var left := rest;
    while left != map[]
      invariant |lead| <= |names| && names[..|lead|] == lead
      invariant Distinct(names)
      invariant |ordered| == |names| && forall j | 0 <= j < |names| :: names[j] in found && ordered[j] == found[names[j]]
      invariant forall n :: n in left <==> n in found && n !in names
      invariant forall n | n in left :: left[n] == found[n]
      invariant forall j | |lead| <= j < |names| :: names[j] in rest
      decreases |left|
    {
      var n :| n in left;
      names, ordered := names + [n], ordered + [left[n]];
      left := left - {n};
    }
  }

  /**
   * The ordering loops: the names the meta file lists come first, in its
   * order, then every other found name in map iteration order;
   * `ordered` holds the found value of each name.
   */
  method OrderByMeta<V>(meta: seq<string>, found: map<string, V>) returns (names: seq<string>, ordered: seq<V>)
    ensures Distinct(names) && (forall n :: n in names <==> n in found)
    ensures |ordered| == |names| && forall i | 0 <= i < |names| :: names[i] in found && ordered[i] == found[names[i]]
    ensures |MetaOrder(meta, found.Keys)| <= |names| && names[..|MetaOrder(meta, found.Keys)|] == MetaOrder(meta, found.Keys)
    ensures forall i | |MetaOrder(meta, found.Keys)| <= i < |names| :: names[i] !in meta
  {
    var lead, leadValues, rest := TakeListed(meta, found);
    MetaOrderMembers(meta, found.Keys);
    names, ordered := AppendRest(found, lead, leadValues, rest);
  }

  /** The names of the entries of a directory level that are kept. */
  function KeptNames<V>(dirs: seq<DirEntry<V>>): set<string> {
    set i | 0 <= i < |dirs| && Kept(dirs[i]) :: dirs[i].name
  }

  /**
   * A whole directory level: the kept entries, each once, the meta file's
   * names first in its order; every kept entry appears and nothing else.
   */
  method Arrange<V>(meta: seq<string>, dirs: seq<DirEntry<V>>) returns (names: seq<string>, ordered: seq<V>)
    requires DistinctNames(dirs)
    ensures Distinct(names)
    ensures forall n :: n in names <==> exists i | 0 <= i < |dirs| :: Kept(dirs[i]) && dirs[i].name == n
    ensures |ordered| == |names|
    ensures forall i, j | 0 <= i < |names| && 0 <= j < |dirs| && Kept(dirs[j]) && dirs[j].name == names[i] ::
      ordered[i] == dirs[j].entry
    ensures forall i, j | 0 <= i < j < |names| && names[j] in meta :: names[i] in meta
    ensures var m := MetaOrder(meta, KeptNames(dirs)); |m| <= |names| && names[..|m|] == m
  {
    var found := Collect(dirs);
    assert found.Keys == KeptNames(dirs);
    names, ordered := OrderByMeta(meta, found);
    MetaOrderMembers(meta, found.Keys);
    var m := MetaOrder(meta, found.Keys);
    forall i, j | 0 <= i < j < |names| && names[j] in meta ensures names[i] in meta {
      if j < |m| {
        assert names[i] == m[i];
      }
    }
  }
}
