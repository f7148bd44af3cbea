/** The dictionary of known keys and the key folder, changed in place. */
module KeyStores {
  import opened Sequences
  import opened KeySpec

  class KeyStore {
    /** Which key IDs are valid global IDs. */
    const valid: set<KeyId>

    var knownKeys: map<KeyId, Key>
    var folder: map<FileName, Content>

    ghost function Abs(): Store
      reads this
    {
      Store(knownKeys, folder)
    }

    constructor (valid: set<KeyId>)
      ensures this.valid == valid && Abs() == EMPTY
    {
      this.valid, knownKeys, folder := valid, map[], map[];
    }

    method WriteFile(name: FileName, content: Content, ok: bool)
      modifies `folder
      ensures folder == if ok then old(folder)[name := content] else old(folder)
    {
      if ok {
        folder := folder[name := content];
      }
    }

    /** The key made is returned, unless the ID is taken. */
    method GenerateKey(id: KeyId, made: Key, ok: bool) returns (generated: bool)
      modifies this
      ensures Abs() == Add(old(Abs()), id, made, ok)
      ensures generated == (id !in old(knownKeys))
    {
      if id in knownKeys {
        return false;
      }
      knownKeys := knownKeys[id := made];
      var name := if made.isPublic then id + PUBLIC else id + PRIVATE;
      WriteFile(name, Exported(made), ok);
      return true;
    }

    method RegisterKey(id: KeyId, source: Content, ok: bool) returns (registered: bool)
      modifies this
      ensures Abs() == Register(old(Abs()), id, source, ok)
      ensures registered == (id !in old(knownKeys) && source.Exported?)
    {
      if id in knownKeys {
        return false;
      }
      if source.Unreadable? {
        return false;
      }
      knownKeys := knownKeys[id := source.key];
      var name := if source.key.isPublic then id + PUBLIC else id + PRIVATE;
      WriteFile(name, source, ok);
      return true;
    }

    /** For the empty ID key_obj answers with the whole dictionary, which has no
        isPublic: the call raises. */
    method EraseKey(id: KeyId, ok: bool) returns (erased: bool)
      modifies this
      ensures Abs() == Erase(old(Abs()), id, ok)
      ensures erased <==> id in old(knownKeys) && id !in knownKeys
    {
      if id !in knownKeys {
        return false;
      }
      if id == "" {
        return false;
      }
      var name := if knownKeys[id].isPublic then id + PUBLIC else id + PRIVATE;
      if !ok || name !in folder {
        return false;
      }
      folder := folder - {name};
      knownKeys := knownKeys - {id};
      return true;
    }

    /** The order in which the folder was listed is returned. */
    method LoadLocalKeys() returns (order: seq<FileName>)
      modifies `knownKeys
      ensures Lists(order, folder.Keys)
      ensures knownKeys == Load(folder, order, valid)
    {
      hide Load, LoadOne, NoDup;
      LoadNone(folder, valid);
      knownKeys := map[];
      order := [];
      var todo := folder.Keys;
      while todo != {}
        invariant todo <= folder.Keys && Lists(order, folder.Keys - todo)
        invariant knownKeys == Load(folder, order, valid)
        decreases todo
      {
        var name :| name in todo;
        LoadSnoc(folder, order, name, valid);
        ListsMore(order, folder.Keys - todo, name);
        todo := todo - {name};
        order := order + [name];
        LoadFile(name);
      }
      assert folder.Keys - todo == folder.Keys;
    }

    /** The body of that loop. */
    method LoadFile(name: FileName)
      requires name in folder
      modifies `knownKeys
      ensures knownKeys == LoadOne(old(knownKeys), folder, name, valid)
    {
      hide IdOf;
      if folder[name].Unreadable? {
        return;
      }
      var key := folder[name].key;
      if !key.isPublic && !key.sound {
        return;
      }
      var id := IdOf(name);
      if id !in valid {
        return;
      }
      knownKeys := knownKeys[id := key];
    }

    /** Every known key gets its file; files of other names stay. */
    method SaveKeysLocal()
      modifies `folder
      ensures forall id :: id in knownKeys ==> Stored(Abs(), id)
      ensures forall name :: name in old(folder) ==> name in folder
      ensures forall name :: name in folder && (name !in old(folder) || folder[name] != old(folder)[name]) ==>
                exists id :: id in knownKeys && name == NameOf(id, knownKeys[id])
      ensures Mirrors(old(Abs())) ==> folder == old(folder)
    {
      hide NameOf;
      var todo := knownKeys.Keys;
      while todo != {}
        invariant todo <= knownKeys.Keys
        invariant forall id :: id in knownKeys && id !in todo ==> Stored(Abs(), id)
        invariant forall name :: name in old(folder) ==> name in folder
        invariant forall name :: name in folder && (name !in old(folder) || folder[name] != old(folder)[name]) ==>
                    exists id :: id in knownKeys && name == NameOf(id, knownKeys[id])
        invariant Mirrors(old(Abs())) ==> folder == old(folder)
        decreases todo
      {
        var id :| id in todo;
        todo := todo - {id};
        var name := NameOf(id, knownKeys[id]);
        ghost var before := folder;
        forall x | x in knownKeys && x != id
          ensures NameOf(x, knownKeys[x]) != name
        {
          if NameOf(x, knownKeys[x]) == name {
            NamesDiffer(x, knownKeys[x], id, knownKeys[id]);
          }
        }
        if Mirrors(old(Abs())) {
          assert Stored(old(Abs()), id);
          assert before[name := Exported(knownKeys[id])] == before;
        }
        WriteFile(name, Exported(knownKeys[id]), true);
      }
    }

    /** shutdown and init: after successful writes the same keys are back exactly
        if each can be loaded. */
    method Restart()
      modifies `knownKeys
      ensures folder == old(folder)
      ensures Mirrors(old(Abs())) ==>
        (knownKeys == old(knownKeys) <==> forall id :: id in old(knownKeys) ==> Loadable(id, old(knownKeys)[id], valid))
    {
      hide Load, Mirrors, Loadable;
      ghost var before := Abs();
      knownKeys := map[];
      var order := LoadLocalKeys();
      if Mirrors(before) {
        ReloadExact(before, order, valid);
      }
    }
  }
}
