/** The keys in memory and the folder that holds a file for each of them, on
    values: what generating, registering and erasing keep, and when reading the
    folder gives back what is in memory. */
module KeySpec {
  import opened Sequences

  type KeyId = string
  type FileName = string

  /** sound tells that a private key verifies its own signatures. */
  datatype Key = Key(isPublic: bool, material: string, sound: bool)

  /** A file holds an exported key or something that cannot be read as one. */
  datatype Content = Exported(key: Key) | Unreadable

  datatype Store = Store(known: map<KeyId, Key>, files: map<FileName, Content>)

  const EMPTY := Store(map[], map[])

  const PRIVATE := ".private"
  const PUBLIC := ".public"

  // ----- file names

  /** str.replace with the empty string: every occurrence, from the left. */
  function Remove(s: string, pat: string): (r: string)
    requires pat != ""
    ensures |r| <= |s|
  {
    if |s| < |pat| then s
    else if s[..|pat|] == pat then Remove(s[|pat|..], pat)
    else [s[0]] + Remove(s[1..], pat)
  }

  lemma OccursFirst(s: string, pat: string)
    requires pat != ""
    ensures |s| >= |pat| && s[..|pat|] == pat ==> Occurs(s, pat)
    ensures |s| < |pat| ==> !Occurs(s, pat)
  {
    assert |s| >= |pat| && s[..|pat|] == pat ==> OccursAt(s, pat, 0);
  }

  lemma OccursLater(s: string, pat: string)
    requires |s| >= |pat| > 0 && s[..|pat|] != pat
    ensures Occurs(s, pat) <==> Occurs(s[1..], pat)
  {
    if Occurs(s, pat) {
      var i :| 0 <= i <= |s| && OccursAt(s, pat, i);
      assert s[1..][i-1..i-1+|pat|] == s[i..i+|pat|];
      assert OccursAt(s[1..], pat, i - 1);
    }
    if Occurs(s[1..], pat) {
      var i :| 0 <= i <= |s[1..]| && OccursAt(s[1..], pat, i);
      assert OccursAt(s, pat, i + 1);
    }
  }

  lemma {:induction false} RemoveNothing(s: string, pat: string)
    requires pat != ""
    ensures Remove(s, pat) == s <==> !Occurs(s, pat)
    ensures Remove(s, pat) != s ==> |Remove(s, pat)| < |s|
  {
    hide Occurs;
    OccursFirst(s, pat);
    if |s| >= |pat| {
      if s[..|pat|] != pat {
        RemoveNothing(s[1..], pat);
        OccursLater(s, pat);
      }
    }
  }

  lemma RemoveHit(s: string, pat: string)
    requires pat != "" && |s| >= |pat| && s[..|pat|] == pat
    ensures Remove(s, pat) == Remove(s[|pat|..], pat)
  {
  }

  lemma RemoveMiss(s: string, pat: string)
    requires s != "" && pat != "" && (|s| >= |pat| ==> s[..|pat|] != pat)
    ensures Remove(s, pat) == [s[0]] + Remove(s[1..], pat)
  {
  }

  lemma RemoveShort(s: string, pat: string)
    requires |s| < |pat|
    ensures Remove(s, pat) == s
  {
  }

  /** An extension starts with its only dot, so no occurrence straddles the
      place where it was appended. */
  lemma HitsAppended(s: string, ext: string, pat: string)
    requires s != "" && pat != "" && ext != "" && ext[0] == '.' && forall i :: 0 < i < |pat| ==> pat[i] != '.'
    ensures |s + ext| >= |pat| && (s + ext)[..|pat|] == pat <==> |s| >= |pat| && s[..|pat|] == pat
    ensures |s| >= |pat| ==> (s + ext)[|pat|..] == s[|pat|..] + ext
    ensures (s + ext)[1..] == s[1..] + ext
  {
    assert (s + ext)[1..] == s[1..] + ext;
    if |s| >= |pat| {
      assert (s + ext)[..|pat|] == s[..|pat|];
      assert (s + ext)[|pat|..] == s[|pat|..] + ext;
    } else if |s + ext| >= |pat| {
      assert (s + ext)[..|pat|][|s|] == ext[0];
    }
  }

  lemma {:induction false} RemoveAppended(s: string, ext: string, pat: string)
    requires pat != "" && ext != "" && ext[0] == '.' && forall i :: 0 < i < |pat| ==> pat[i] != '.'
    ensures Remove(s + ext, pat) == Remove(s, pat) + Remove(ext, pat)
  {
    hide Remove;
    if s == "" {
      assert s + ext == ext;
      RemoveShort(s, pat);
    } else {
      HitsAppended(s, ext, pat);
      if |s| >= |pat| && s[..|pat|] == pat {
        RemoveHit(s, pat);
        RemoveHit(s + ext, pat);
        RemoveAppended(s[|pat|..], ext, pat);
      } else {
        RemoveMiss(s, pat);
        RemoveMiss(s + ext, pat);
        RemoveAppended(s[1..], ext, pat);
      }
    }
  }

  function NameOf(id: KeyId, key: Key): FileName {
    id + if key.isPublic then PUBLIC else PRIVATE
  }

  /** The key ID that loading makes of a file name. */
  function IdOf(name: FileName): KeyId {
    Remove(Remove(name, PRIVATE), PUBLIC)
  }

  predicate Plain(id: KeyId) {
    !Occurs(id, PRIVATE) && !Occurs(id, PUBLIC)
  }

  /** Loading undoes saving exactly for the IDs that contain neither extension;
      any other ID comes back shorter. */
  lemma NameRoundTrip(id: KeyId, key: Key)
    ensures IdOf(NameOf(id, key)) == id <==> Plain(id)
    ensures IdOf(NameOf(id, key)) != id ==> |IdOf(NameOf(id, key))| < |id|
    ensures IdOf(NameOf(id, key)) == IdOf(id)
    ensures id <= NameOf(id, key) && NameOf(id, key)[|id|..] == if key.isPublic then ".public" else ".private"
  {
    var rest := Remove(id, PRIVATE);
    RemoveNothing(id, PRIVATE);
    RemoveNothing(rest, PUBLIC);
    assert Remove(PUBLIC, PRIVATE) == PUBLIC;
    assert PRIVATE[8..] == "" && PUBLIC[7..] == "";
    assert Remove(PRIVATE, PRIVATE) == "" && Remove(PUBLIC, PUBLIC) == "";
    if key.isPublic {
      RemoveAppended(id, PUBLIC, PRIVATE);
      RemoveAppended(rest, PUBLIC, PUBLIC);
      assert Remove(rest, PUBLIC) + "" == Remove(rest, PUBLIC);
    } else {
      RemoveAppended(id, PRIVATE, PRIVATE);
      assert rest + "" == rest;
    }
  }

  lemma NamesDiffer(a: KeyId, k: Key, b: KeyId, h: Key)
    requires NameOf(a, k) == NameOf(b, h)
    ensures a == b && k.isPublic == h.isPublic
  {
    var n, m := NameOf(a, k), NameOf(b, h);
    assert k.isPublic ==> n[|n|-1] == 'c';
    assert !k.isPublic ==> n[|n|-1] == 'e';
    assert h.isPublic ==> m[|m|-1] == 'c';
    assert !h.isPublic ==> m[|m|-1] == 'e';
    assert a == n[..|a|] && b == m[..|b|];
  }

  // ----- the operations; ok tells that the file operation succeeded

  function Write(files: map<FileName, Content>, id: KeyId, key: Key, ok: bool): map<FileName, Content> {
    if ok then files[NameOf(id, key) := Exported(key)] else files
  }

  /** generate_key, and register_key with an object or a readable string. */
  function Add(s: Store, id: KeyId, key: Key, ok: bool): Store {
    if id in s.known then s
    else Store(s.known[id := key], Write(s.files, id, key, ok))
  }

  function Register(s: Store, id: KeyId, source: Content, ok: bool): Store {
    if source.Exported? then Add(s, id, source.key, ok) else s
  }

  /** The empty ID stands for all keys, and then the erasure raises. */
  function Erase(s: Store, id: KeyId, ok: bool): Store {
    if id !in s.known || id == "" then s
    else
      var name := NameOf(id, s.known[id]);
      if ok && name in s.files then Store(s.known - {id}, s.files - {name}) else s
  }

  predicate Acceptable(files: map<FileName, Content>, name: FileName, valid: set<KeyId>) {
    name in files && files[name].Exported? && (files[name].key.isPublic || files[name].key.sound) && IdOf(name) in valid
  }

  function LoadOne(known: map<KeyId, Key>, files: map<FileName, Content>, name: FileName,
      valid: set<KeyId>): map<KeyId, Key>
  {
    if Acceptable(files, name, valid) then known[IdOf(name) := files[name].key] else known
  }

  /** load_local_keys; the folder lists its files in some order. */
  function Load(files: map<FileName, Content>, order: seq<FileName>, valid: set<KeyId>): map<KeyId, Key> {
    if order == [] then map[]
    else LoadOne(Load(files, order[..|order|-1], valid), files, order[|order|-1], valid)
  }

  lemma LoadSnoc(files: map<FileName, Content>, order: seq<FileName>, name: FileName, valid: set<KeyId>)
    ensures Load(files, order + [name], valid) == LoadOne(Load(files, order, valid), files, name, valid)
  {
    hide LoadOne;
    assert (order + [name])[..|order + [name]| - 1] == order;
  }

  // ----- what runs keep

  /** The folder holds exactly one file for each key, with its content. */
  ghost predicate Mirrors(s: Store) {
    && (forall id :: id in s.known ==> Stored(s, id))
    && forall name :: name in s.files ==> exists id :: id in s.known && name == NameOf(id, s.known[id])
  }

  ghost predicate Stored(s: Store, id: KeyId)
    requires id in s.known
  {
    var name := NameOf(id, s.known[id]);
    name in s.files && s.files[name] == Exported(s.known[id])
  }

  lemma AddKeeps(s: Store, id: KeyId, key: Key)
    requires Mirrors(s)
    ensures Mirrors(Add(s, id, key, true))
  {
    hide NameOf;
    if id !in s.known {
      var r := Add(s, id, key, true);
      forall x | x in r.known
        ensures Stored(r, x)
      {
        if x != id {
          assert Stored(s, x);
          if NameOf(x, s.known[x]) == NameOf(id, key) {
            NamesDiffer(x, s.known[x], id, key);
          }
        }
      }
      forall name | name in r.files
        ensures exists x :: x in r.known && name == NameOf(x, r.known[x])
      {
        if name in s.files {
          var x :| x in s.known && name == NameOf(x, s.known[x]);
          assert x in r.known && name == NameOf(x, r.known[x]);
        } else {
          assert id in r.known && name == NameOf(id, r.known[id]);
        }
      }
    }
  }

  lemma EraseKeeps(s: Store, id: KeyId, ok: bool)
    requires Mirrors(s)
    ensures Mirrors(Erase(s, id, ok))
  {
    hide NameOf;
    var r := Erase(s, id, ok);
    if r != s {
      forall x | x in r.known
        ensures Stored(r, x)
      {
        assert Stored(s, x);
        if NameOf(x, s.known[x]) == NameOf(id, s.known[id]) {
          NamesDiffer(x, s.known[x], id, s.known[id]);
        }
      }
      forall name | name in r.files
        ensures exists x :: x in r.known && name == NameOf(x, r.known[x])
      {
        var x :| x in s.known && name == NameOf(x, s.known[x]);
        assert x in r.known && name == NameOf(x, r.known[x]);
      }
    }
  }

  /** A new key is known exactly as given, and in its file if the write succeeds;
      a taken ID keeps its key, and all others keep theirs. */
  lemma AddExact(s: Store, id: KeyId, key: Key, ok: bool, x: KeyId)
    ensures var r := Add(s, id, key, ok);
      && (x in r.known <==> x in s.known || x == id)
      && (x in s.known ==> r.known[x] == s.known[x])
      && (id !in s.known ==> r.known[id] == key && (ok ==> Stored(r, id)))
      && (id in s.known || !ok ==> r.files == s.files)
      && forall name :: name in s.files && name != NameOf(id, key) ==> name in r.files && r.files[name] == s.files[name]
    ensures Register(s, id, Unreadable, ok) == s && Register(s, id, Exported(key), ok) == Add(s, id, key, ok)
  {
    hide NameOf;
  }

  /** In a folder that mirrors the keys, an erasure that the file system allows
      takes out the key of this ID and its file, and nothing else; any other
      changes nothing. */
  lemma EraseExact(s: Store, id: KeyId, ok: bool, x: KeyId)
    requires Mirrors(s)
    ensures var r := Erase(s, id, ok);
      && (x in r.known <==> x in s.known && !(x == id && id != "" && ok))
      && (x in r.known ==> r.known[x] == s.known[x] && Stored(r, x))
      && (id in s.known && id != "" && ok ==> NameOf(id, s.known[id]) !in r.files)
      && (!(id in s.known && id != "" && ok) ==> r == s)
  {
    hide NameOf;
    if id in s.known {
      assert Stored(s, id);
    }
    if x in s.known && x != id {
      assert Stored(s, x);
      if id in s.known && NameOf(x, s.known[x]) == NameOf(id, s.known[id]) {
        NamesDiffer(x, s.known[x], id, s.known[id]);
      }
    }
    if x in s.known {
      assert Stored(s, x);
    }
  }

  datatype Event =
    | Generating(id: KeyId, key: Key)
    | Registering(id: KeyId, source: Content)
    | Erasing(id: KeyId, ok: bool)

  function Step(s: Store, e: Event): Store {
    match e
    case Generating(id, key) => Add(s, id, key, true)
    case Registering(id, source) => Register(s, id, source, true)
    case Erasing(id, ok) => Erase(s, id, ok)
  }

  /** Runs in which every write succeeds. */
  function Run(es: seq<Event>): Store {
    if es == [] then EMPTY else Step(Run(es[..|es|-1]), es[|es|-1])
  }

  lemma {:induction false} RunMirrors(es: seq<Event>)
    ensures Mirrors(Run(es))
  {
    hide Mirrors, Add, Erase;
    if es == [] {
      EmptyMirrors();
    } else {
      var s, e := Run(es[..|es|-1]), es[|es|-1];
      RunMirrors(es[..|es|-1]);
      match e
      case Generating(id, key) => AddKeeps(s, id, key);
      case Registering(id, source) => if source.Exported? { AddKeeps(s, id, source.key); }
      case Erasing(id, ok) => EraseKeeps(s, id, ok);
    }
  }

  lemma EmptyMirrors()
    ensures Mirrors(EMPTY)
  {
  }

  // ----- reloading

  lemma {:induction false} LoadedFrom(files: map<FileName, Content>, order: seq<FileName>, valid: set<KeyId>, id: KeyId)
    returns (name: FileName)
    requires id in Load(files, order, valid)
    ensures name in order && Acceptable(files, name, valid) && IdOf(name) == id
    ensures Load(files, order, valid)[id] == files[name].key
    decreases |order|
  {
    hide IdOf;
    var rest, last := order[..|order|-1], order[|order|-1];
    if Acceptable(files, last, valid) && IdOf(last) == id {
      name := last;
    } else {
      name := LoadedFrom(files, rest, valid, id);
    }
  }

  lemma {:induction false} LoadsAll(files: map<FileName, Content>, order: seq<FileName>, valid: set<KeyId>,
      name: FileName)
    requires name in order && Acceptable(files, name, valid)
    ensures IdOf(name) in Load(files, order, valid)
    decreases |order|
  {
    hide IdOf;
    var rest, last := order[..|order|-1], order[|order|-1];
    assert order == rest + [last];
    if name != last {
      LoadsAll(files, rest, valid, name);
    }
  }

  /** The key survives saving and loading. */
  predicate Loadable(id: KeyId, key: Key, valid: set<KeyId>) {
    Plain(id) && id in valid && (key.isPublic || key.sound)
  }

  lemma LoadNone(files: map<FileName, Content>, valid: set<KeyId>)
    ensures Load(files, [], valid) == map[] && Lists<FileName>([], {})
  {
  }

  /** Whatever is loaded comes from the file of a key in memory. */
  lemma LoadedOwner(s: Store, order: seq<FileName>, valid: set<KeyId>, id: KeyId) returns (owner: KeyId)
    requires Mirrors(s) && id in Load(s.files, order, valid)
    ensures owner in s.known && Load(s.files, order, valid)[id] == s.known[owner]
    ensures id == owner <==> Plain(owner)
    ensures id != owner ==> |id| < |owner|
    ensures id in valid && (s.known[owner].isPublic || s.known[owner].sound)
  {
    hide NameOf, IdOf, Plain, Load;
    var name := LoadedFrom(s.files, order, valid, id);
    owner :| owner in s.known && name == NameOf(owner, s.known[owner]);
    assert Stored(s, owner);
    NameRoundTrip(owner, s.known[owner]);
  }

  lemma LoadedIfLoadable(s: Store, order: seq<FileName>, valid: set<KeyId>, id: KeyId)
    requires Mirrors(s) && Lists(order, s.files.Keys) && id in s.known && Loadable(id, s.known[id], valid)
    ensures id in Load(s.files, order, valid)
  {
    hide NameOf, IdOf, Plain, Load;
    var name := NameOf(id, s.known[id]);
    assert Stored(s, id);
    assert name in Elements(order);
    NameRoundTrip(id, s.known[id]);
    LoadsAll(s.files, order, valid, name);
  }

  lemma {:induction false} LongestOdd(ids: set<KeyId>) returns (id: KeyId)
    requires exists x :: x in ids && !Plain(x)
    ensures id in ids && !Plain(id) && forall x :: x in ids && !Plain(x) ==> |x| <= |id|
    decreases ids
  {
    hide Plain;
    id :| id in ids && !Plain(id);
    if x :| x in ids && !Plain(x) && |x| > |id| {
      assert x in ids - {id};
      var longest := LongestOdd(ids - {id});
      id := longest;
    }
  }

  /** Reloading the folder rebuilds exactly the keys in memory, in whatever
      order the files come, if and only if every key ID is valid and contains
      neither extension and every private key verifies its signatures. */
  lemma ReloadExact(s: Store, order: seq<FileName>, valid: set<KeyId>)
    requires Mirrors(s) && Lists(order, s.files.Keys)
    ensures Load(s.files, order, valid) == s.known
      <==> forall id :: id in s.known ==> Loadable(id, s.known[id], valid)
  {
    hide NameOf, IdOf, Plain, Load, Mirrors;
    var loaded := Load(s.files, order, valid);
    if forall id :: id in s.known ==> Loadable(id, s.known[id], valid) {
      forall id | id in s.known
        ensures id in loaded
      {
        LoadedIfLoadable(s, order, valid, id);
      }
      forall id | id in loaded
        ensures id in s.known && loaded[id] == s.known[id]
      {
        var owner := LoadedOwner(s, order, valid, id);
        assert Loadable(owner, s.known[owner], valid);
      }
    }
    if loaded == s.known {
      if exists x :: x in s.known.Keys && !Plain(x) {
        var odd := LongestOdd(s.known.Keys);
        var owner := LoadedOwner(s, order, valid, odd);
        assert false;
      }
      forall id | id in s.known
        ensures Loadable(id, s.known[id], valid)
      {
        var owner := LoadedOwner(s, order, valid, id);
        assert owner in s.known.Keys;
      }
    }
  }

  /** ... and so after every run of generating, registering and erasing. */
  lemma ReloadAfterRun(es: seq<Event>, order: seq<FileName>, valid: set<KeyId>)
    requires Lists(order, Run(es).files.Keys)
    ensures Load(Run(es).files, order, valid) == Run(es).known
      <==> forall id :: id in Run(es).known ==> Loadable(id, Run(es).known[id], valid)
  {
    hide Load, Loadable;
    RunMirrors(es);
    ReloadExact(Run(es), order, valid);
  }
}
