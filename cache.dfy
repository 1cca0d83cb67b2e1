/** The local model cache (src/model/cache.py). The models directory is a
    listing of entries, each a name and whether it is a directory; removing
    a directory tree drops its entry from the listing. */
module Cache {
  import opened Text

  /** One entry of the models directory. */
  datatype Entry = Entry(name: string, isDir: bool)

  /** Line 19: `name == model_name or name.endswith("-" + model_name) or
      model_name in name`. */
  predicate NameMatches(name: string, model: string)
  {
    name == model || EndsWith(name, "-" + model) || Contains(name, model)
  }

  /** The three alternatives of the match reduce to the last: the name
      contains the model name. */
  lemma NameMatchesIsContains(name: string, model: string)
    ensures NameMatches(name, model) <==> Contains(name, model)
  {
    if name == model {
      assert StartsWith(name, model);
    }
    if EndsWith(name, "-" + model) {
      assert name[|name| - |model|..] == name[|name| - |"-" + model|..][1..];
      EndsWithContains(name, model);
    }
  }

  /** An entry `_model_dirs` keeps: a directory whose name matches. */
  predicate IsMatch(e: Entry, model: string)
  {
    e.isDir && NameMatches(e.name, model)
  }

  /** The matching entries, in listing order. */
  function Matching(es: seq<Entry>, model: string): seq<Entry>
  {
    if es == [] then []
    else
      var n := |es| - 1;
      Matching(es[..n], model) + (if IsMatch(es[n], model) then [es[n]] else [])
  }

  /** An entry is among the matches exactly when it is listed and matches. */
  lemma {:induction false} MatchingMembers(es: seq<Entry>, model: string, e: Entry)
    ensures e in Matching(es, model) <==> e in es && IsMatch(e, model)
  {
    if es != [] {
      var n := |es| - 1;
      MatchingMembers(es[..n], model, e);
      assert es == es[..n] + [es[n]];
    }
  }

  /** The entries left after removing the matches, in listing order. */
  function Kept(es: seq<Entry>, model: string): seq<Entry>
  {
    if es == [] then []
    else
      var n := |es| - 1;
      Kept(es[..n], model) + (if IsMatch(es[n], model) then [] else [es[n]])
  }

  /** An entry survives exactly when it is listed and does not match. */
  lemma {:induction false} KeptMembers(es: seq<Entry>, model: string, e: Entry)
    ensures e in Kept(es, model) <==> e in es && !IsMatch(e, model)
  {
    if es != [] {
      var n := |es| - 1;
      KeptMembers(es[..n], model, e);
      assert es == es[..n] + [es[n]];
    }
  }

  /** The entries whose names are not in `names`, in listing order. */
  function DropNames(es: seq<Entry>, names: set<string>): seq<Entry>
  {
    if es == [] then []
    else
      var n := |es| - 1;
      DropNames(es[..n], names) + (if es[n].name in names then [] else [es[n]])
  }

  /** Dropping two sets of names one after the other drops their union. */
  lemma {:induction false} DropNamesTwice(es: seq<Entry>, a: set<string>, b: set<string>)
    ensures DropNames(DropNames(es, a), b) == DropNames(es, a + b)
  {
    if es != [] {
      var n := |es| - 1;
      var first := DropNames(es[..n], a);
      DropNamesTwice(es[..n], a, b);
      if es[n].name !in a {
        assert DropNames(es, a) == first + [es[n]];
        assert (first + [es[n]])[..|first|] == first;
        assert DropNames(first + [es[n]], b)
               == DropNames(first, b) + (if es[n].name in b then [] else [es[n]]);
      } else {
        assert DropNames(es, a) == first;
      }
      assert DropNames(es, a + b) == DropNames(es[..n], a + b) + (if es[n].name in a + b then [] else [es[n]]);
    }
  }

  /** Dropping by name agrees with any filter that picks out the same
      entries. */
  lemma {:induction false} DropNamesIsKept(es: seq<Entry>, names: set<string>, model: string)
    requires forall k :: 0 <= k < |es| ==> (es[k].name in names <==> IsMatch(es[k], model))
    ensures DropNames(es, names) == Kept(es, model)
  {
    if es != [] {
      var n := |es| - 1;
      assert forall k :: 0 <= k < n ==> es[..n][k] == es[k];
      DropNamesIsKept(es[..n], names, model);
    }
  }

  /** The names of a sequence of entries. */
  function NamesOf(es: seq<Entry>): set<string>
  {
    if es == [] then {} else NamesOf(es[..|es| - 1]) + {es[|es| - 1].name}
  }

  /** A name is among the names exactly when some entry carries it. */
  lemma {:induction false} NamesOfMembers(es: seq<Entry>, x: string)
    ensures x in NamesOf(es) <==> exists k :: 0 <= k < |es| && es[k].name == x
  {
    if es != [] {
      var n := |es| - 1;
      NamesOfMembers(es[..n], x);
      if exists k :: 0 <= k < n && es[..n][k].name == x {
        var k :| 0 <= k < n && es[..n][k].name == x;
        assert es[k] == es[..n][k];
      }
      if exists k :: 0 <= k < |es| && es[k].name == x {
        var k :| 0 <= k < |es| && es[k].name == x;
        if k < n {
          assert es[..n][k] == es[k];
        }
      }
    }
  }

  /** Line 32: `name.split("-")[-1]`, the text after the last '-', or the
      whole name when it has none. */
  function AfterLastDash(s: string): (r: string)
    ensures |r| <= |s| && r == s[|s| - |r|..]
    ensures forall i :: 0 <= i < |r| ==> r[i] != '-'
    ensures |r| < |s| ==> s[|s| - |r| - 1] == '-'
  {
    if s == [] then []
    else if s[|s| - 1] == '-' then []
    else AfterLastDash(s[..|s| - 1]) + [s[|s| - 1]]
  }

  /** The three properties of `AfterLastDash` determine it: any dash-free
      suffix that is the whole string or follows a '-' is the result. */
  lemma {:induction false} AfterLastDashUnique(s: string, t: string)
    requires |t| <= |s| && t == s[|s| - |t|..]
    requires forall i :: 0 <= i < |t| ==> t[i] != '-'
    requires |t| < |s| ==> s[|s| - |t| - 1] == '-'
    ensures AfterLastDash(s) == t
  {
    if s == [] {
    } else if s[|s| - 1] == '-' {
      assert |t| == 0;
    } else {
      assert |t| > 0;
      var s', t' := s[..|s| - 1], t[..|t| - 1];
      assert t' == s'[|s'| - |t'|..];
      AfterLastDashUnique(s', t');
      assert t == t' + [s[|s| - 1]];
    }
  }

  /** The name `list_cached_models` reports for a directory. */
  function CachedName(name: string): (r: string)
    ensures StartsWith(name, "models--") ==> r == AfterLastDash(name)
    ensures !StartsWith(name, "models--") ==> r == name
  {
    if StartsWith(name, "models--") then AfterLastDash(name) else name
  }

  /** The cached model names of a listing. */
  function CachedNames(es: seq<Entry>): set<string>
  {
    if es == [] then {}
    else
      var n := |es| - 1;
      CachedNames(es[..n]) + (if es[n].isDir then {CachedName(es[n].name)} else {})
  }

  /** Entry `e` is a directory reported as model `x`. */
  predicate Reports(e: Entry, x: string)
  {
    e.isDir && CachedName(e.name) == x
  }

  /** A name is cached exactly when some directory reports it; files are
      ignored. */
  lemma {:induction false} CachedNamesMembers(es: seq<Entry>, x: string)
    ensures x in CachedNames(es) <==> exists k :: 0 <= k < |es| && Reports(es[k], x)
  {
    if es != [] {
      var n := |es| - 1;
      CachedNamesMembers(es[..n], x);
      if exists k :: 0 <= k < n && Reports(es[..n][k], x) {
        var k :| 0 <= k < n && Reports(es[..n][k], x);
        assert es[k] == es[..n][k];
      }
      if exists k :: 0 <= k < |es| && Reports(es[k], x) {
        var k :| 0 <= k < |es| && Reports(es[k], x);
        if k < n {
          assert es[..n][k] == es[k];
        }
      }
    }
  }

  /** A Hugging Face directory, a plain directory and a file: the cached set
      holds the two model names. */
  lemma CachedExample()
    ensures CachedNames([Entry("models--openai--small", true), Entry("base", true),
                         Entry("note.txt", false)]) == {"small", "base"}
  {
    var hf := "models--openai--small";
    assert StartsWith(hf, "models--");
    AfterLastDashUnique(hf, "small");
    assert !StartsWith("base", "models--");
    var es := [Entry(hf, true), Entry("base", true), Entry("note.txt", false)];
    assert es[..2][..1] == es[..1];
    assert es[..1][..0] == [];
    assert CachedNames(es[..1]) == {"small"};
    assert CachedNames(es[..2]) == {"small", "base"};
  }

  /** No two entries share a name. */
  predicate DistinctNames(es: seq<Entry>)
  {
    forall i, j :: 0 <= i < j < |es| ==> es[i].name != es[j].name
  }

  /** `MODELS_DIR`: whether it exists, and its entries. */
  class ModelsDir {
    var present: bool
    var entries: seq<Entry>

    /** A missing directory has no entries; names within a directory are
        distinct. */
    ghost predicate Valid()
      reads this
    {
      (!present ==> entries == []) && DistinctNames(entries)
    }

    constructor (present: bool, entries: seq<Entry>)
      requires !present ==> entries == []
      requires DistinctNames(entries)
      ensures Valid() && this.present == present && this.entries == entries
    {
      this.present := present;
      this.entries := entries;
    }

    /** `_model_dirs`: the matching directories, or none when the directory
        is missing. */
    method ModelDirs(model: string) returns (matches: seq<Entry>)
      ensures matches == if present then Matching(entries, model) else []
    {
      if !present {
        return [];
      }
      matches := [];
      var i := 0;
      while i < |entries|
        invariant 0 <= i <= |entries|
        invariant matches == Matching(entries[..i], model)
      {
        var entry := entries[i];
        assert entries[..i + 1][..i] == entries[..i];
        if entry.isDir {
          var name := entry.name;
          if name == model || EndsWith(name, "-" + model) || Contains(name, model) {
            matches := matches + [entry];
          }
        }
        i := i + 1;
      }
      assert entries[..i] == entries;
    }

    /** `list_cached_models`. */
    method ListCachedModels() returns (models: set<string>)
      ensures models == if present then CachedNames(entries) else {}
    {
      if !present {
        return {};
      }
      models := {};
      var i := 0;
      while i < |entries|
        invariant 0 <= i <= |entries|
        invariant models == CachedNames(entries[..i])
      {
        var entry := entries[i];
        assert entries[..i + 1][..i] == entries[..i];
        if entry.isDir {
          var name := entry.name;
          if StartsWith(name, "models--") {
            models := models + {AfterLastDash(name)};
          } else {
            models := models + {name};
          }
        }
        i := i + 1;
      }
      assert entries[..i] == entries;
    }

    /** `is_model_cached`: some directory's name contains the model name. */
    method IsModelCached(model: string) returns (cached: bool)
      ensures cached <==> present && exists k :: 0 <= k < |entries| && entries[k].isDir
                                                 && Contains(entries[k].name, model)
    {
      var matches := ModelDirs(model);
      cached := matches != [];
      if present {
        if cached {
          MatchingMembers(entries, model, matches[0]);
          var k :| 0 <= k < |entries| && entries[k] == matches[0];
          NameMatchesIsContains(entries[k].name, model);
        }
        forall k | 0 <= k < |entries| && entries[k].isDir && Contains(entries[k].name, model)
          ensures cached
        {
          NameMatchesIsContains(entries[k].name, model);
          MatchingMembers(entries, model, entries[k]);
        }
      }
    }

    /** `remove_model_cache`: remove every matching directory tree; true
        exactly when something matched. Non-matching entries are kept in
        order. */
    method RemoveModelCache(model: string) returns (removed: bool)
      requires Valid()
      modifies this
      ensures Valid() && present == old(present)
      ensures removed <==> old(present) && old(Matching(entries, model)) != []
      ensures entries == Kept(old(entries), model)
    {
      var matches := ModelDirs(model);
      ghost var before := entries;
      DropNamesNone(before);
      assert NamesOf(matches[..0]) == {};
      removed := false;
      var i := 0;
      while i < |matches|
        invariant 0 <= i <= |matches|
        invariant removed <==> i > 0
        invariant entries == DropNames(before, NamesOf(matches[..i]))
        invariant present == old(present)
      {
        DropStep(before, matches, i);
        entries := DropNames(entries, {matches[i].name});
        removed := true;
        i := i + 1;
      }
      assert matches[..i] == matches;
      RemoveEffect(before, model);
    }
  }

  /** Dropping no names keeps every entry. */
  lemma {:induction false} DropNamesNone(es: seq<Entry>)
    ensures DropNames(es, {}) == es
  {
    if es != [] {
      DropNamesNone(es[..|es| - 1]);
      assert es == es[..|es| - 1] + [es[|es| - 1]];
    }
  }

  /** One more removal drops one more name. */
  lemma DropStep(es: seq<Entry>, ms: seq<Entry>, i: nat)
    requires i < |ms|
    ensures DropNames(DropNames(es, NamesOf(ms[..i])), {ms[i].name}) == DropNames(es, NamesOf(ms[..i + 1]))
  {
    DropNamesTwice(es, NamesOf(ms[..i]), {ms[i].name});
    assert ms[..i + 1][..i] == ms[..i];
  }

  /** With distinct names, an entry's name is a match's name exactly when the
      entry itself matches. */
  lemma MatchNames(es: seq<Entry>, model: string)
    requires DistinctNames(es)
    ensures forall k :: 0 <= k < |es| ==> (es[k].name in NamesOf(Matching(es, model)) <==> IsMatch(es[k], model))
  {
    var matches := Matching(es, model);
    forall k | 0 <= k < |es|
      ensures es[k].name in NamesOf(matches) <==> IsMatch(es[k], model)
    {
      MatchingMembers(es, model, es[k]);
      NamesOfMembers(matches, es[k].name);
      if es[k].name in NamesOf(matches) {
        var j :| 0 <= j < |matches| && matches[j].name == es[k].name;
        MatchingMembers(es, model, matches[j]);
        var l :| 0 <= l < |es| && es[l] == matches[j];
        assert l == k;
      }
    }
  }

  /** Removing the matches one name at a time leaves exactly the
      non-matching entries, still with distinct names. */
  lemma RemoveEffect(es: seq<Entry>, model: string)
    requires DistinctNames(es)
    ensures DropNames(es, NamesOf(Matching(es, model))) == Kept(es, model)
    ensures DistinctNames(Kept(es, model))
  {
    MatchNames(es, model);
    DropNamesIsKept(es, NamesOf(Matching(es, model)), model);
    KeptDistinct(es, model);
  }

  /** Filtering keeps distinct names distinct. */
  lemma {:induction false} KeptDistinct(es: seq<Entry>, model: string)
    requires DistinctNames(es)
    ensures DistinctNames(Kept(es, model))
  {
    if es != [] {
      var n := |es| - 1;
      assert DistinctNames(es[..n]);
      KeptDistinct(es[..n], model);
      var prev := Kept(es[..n], model);
      if !IsMatch(es[n], model) {
        forall i | 0 <= i < |prev|
          ensures prev[i].name != es[n].name
        {
          KeptMembers(es[..n], model, prev[i]);
          var k :| 0 <= k < n && es[..n][k] == prev[i];
          assert es[k] == prev[i];
        }
        assert Kept(es, model) == prev + [es[n]];
      }
    }
  }
}
