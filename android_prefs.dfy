/** The part of Android's `SharedPreferences` the app relies on: one private
    string-to-string file, changed only through an `Editor` whose collected
    edits take effect together when `apply()` is called. Only string values
    are modelled, because the app stores nothing else in `simcash_prefs`. */
module AndroidPrefs {
  import opened Common

  /** What `Editor.apply()` does to the stored map: every key the editor
      touched takes its new value, or disappears when it was removed. */
  function Commit(data: map<string, string>, edits: map<string, Option<string>>): (r: map<string, string>)
    ensures forall k :: k in edits && edits[k].Some? ==> k in r && r[k] == edits[k].value
    ensures forall k :: k in edits && edits[k].None? ==> k !in r
    ensures forall k :: k !in edits ==> (k in r <==> k in data) && (k in data ==> r[k] == data[k])
  {
    map k | k in data.Keys + edits.Keys && (k in edits ==> edits[k].Some?)
      :: if k in edits then edits[k].value else data[k]
  }

  /** An editor that only removed `keys` deletes exactly those keys. */
  lemma CommitRemovals(data: map<string, string>, keys: set<string>)
    ensures Commit(data, map k | k in keys :: None) == data - keys
  {
    var edits: map<string, Option<string>> := map k | k in keys :: None;
    assert Commit(data, edits).Keys == (data - keys).Keys;
  }

  /** An editor that put one value changes that key only. */
  lemma CommitPut(data: map<string, string>, key: string, value: string)
    ensures Commit(data, map[key := Some(value)]) == data[key := value]
  {
    assert Commit(data, map[key := Some(value)]).Keys == data[key := value].Keys;
  }

  class SharedPreferences {
    /** `getAll()`: the stored entries. */
    var data: map<string, string>

    constructor (initial: map<string, string>)
      ensures data == initial
    {
      data := initial;
    }

    /** `edit()`: a fresh editor with nothing recorded yet. */
    method Edit() returns (e: Editor)
      ensures fresh(e) && e.prefs == this && e.edits == map[]
    {
      e := new Editor(this);
    }
  }

  class Editor {
    const prefs: SharedPreferences
    /** The pending changes: `Some(v)` for `putString`, `None` for `remove`. */
    var edits: map<string, Option<string>>

    constructor (prefs: SharedPreferences)
      ensures this.prefs == prefs && edits == map[]
    {
      this.prefs := prefs;
      edits := map[];
    }

    method PutString(key: string, value: string)
      modifies this
      ensures edits == old(edits)[key := Some(value)]
    {
      edits := edits[key := Some(value)];
    }

    method Remove(key: string)
      modifies this
      ensures edits == old(edits)[key := None]
    {
      edits := edits[key := None];
    }

    /** `apply()`: the recorded edits reach the stored map all at once. */
    method Apply()
      modifies prefs
      ensures prefs.data == Commit(old(prefs.data), edits)
    {
      prefs.data := Commit(prefs.data, edits);
    }

    /** `keys.forEach { editor.remove(it) }`. */
    method RemoveEach(keys: set<string>)
      modifies this
      ensures edits == old(edits) + map k | k in keys :: None
    {
      var rest := keys;
      ghost var done: set<string> := {};
      while rest != {}
        invariant rest + done == keys && rest !! done
        invariant edits == old(edits) + map k | k in done :: None
        decreases rest
      {
        var k :| k in rest;
        Remove(k);
        rest := rest - {k};
        done := done + {k};
      }
    }
  }
}
