/** The parts of the storage manager that are not file I/O: the cache key
    derived from a literature query, the literature cache as a map from key
    to results, and the id checks and pathlib paths of the two save
    operations. */
module Storage {
  import opened Wrappers
  import opened Text

  /** Characters the key derivation keeps. */
  predicate KeptChar(c: char) {
    IsAlnum(c) || c == ' ' || c == '-' || c == '_'
  }

  /** `"".join(c for c in query if c.isalnum() or c in (' ', '-', '_'))` */
  function Filter(q: string): (r: string)
    ensures |r| <= |q|
    ensures forall i :: 0 <= i < |r| ==> KeptChar(r[i])
  {
    if |q| == 0 then ""
    else Filter(q[..|q| - 1]) + (if KeptChar(q[|q| - 1]) then [q[|q| - 1]] else "")
  }

  /** The key shared by `cache_literature_search` and `get_cached_literature`. */
  function SafeQuery(q: string): (key: string)
    ensures |key| <= 50
    ensures forall i :: 0 <= i < |key| ==> IsAlnum(key[i]) || key[i] == '-' || key[i] == '_'
  {
    var kept := StripRight(Filter(q));
    ReplaceOneChar(kept, ' ', '_');
    Take(Replace(kept, " ", "_"), 50)
  }

  /** Replacing a one-character pattern replaces that character everywhere. */
  lemma {:induction false} ReplaceOneChar(s: string, a: char, b: char)
    ensures |Replace(s, [a], [b])| == |s|
    ensures forall i :: 0 <= i < |s| ==> Replace(s, [a], [b])[i] == if s[i] == a then b else s[i]
    decreases |s|
  {
    if |s| > 0 {
      ReplaceOneChar(s[1..], a, b);
      assert StartsWith(s, [a]) <==> s[0] == a;
    }
  }

  /** Replacing a character that does not occur changes nothing. */
  lemma ReplaceAbsent(s: string, a: char, b: char)
    requires a !in s
    ensures Replace(s, [a], [b]) == s
  {
    ReplaceOneChar(s, a, b);
  }

  lemma {:induction false} FilterKeeps(q: string)
    requires forall i :: 0 <= i < |q| ==> KeptChar(q[i])
    ensures Filter(q) == q
  {
    if |q| > 0 {
      FilterKeeps(q[..|q| - 1]);
    }
  }

  lemma FilterSnoc(q: string, c: char)
    ensures Filter(q + [c]) == Filter(q) + (if KeptChar(c) then [c] else "")
  {
    assert (q + [c])[..|q|] == q;
  }

  /** A dropped character appended to the query does not change the key. */
  lemma DroppedCharIgnored(q: string, c: char)
    requires !KeptChar(c)
    ensures SafeQuery(q + [c]) == SafeQuery(q)
  {
    FilterSnoc(q, c);
    assert Filter(q + [c]) == Filter(q);
  }

  /** Trailing spaces are removed before spaces become underscores, so a
      trailing space does not change the key. */
  lemma TrailingSpaceIgnored(q: string)
    ensures SafeQuery(q + " ") == SafeQuery(q)
  {
    FilterSnoc(q, ' ');
    assert Filter(q + " ") == Filter(q) + " ";
    assert StripRight(Filter(q) + " ") == StripRight(Filter(q)) by {
      var f := Filter(q) + " ";
      assert f[..|f| - 1] == Filter(q);
    }
  }

  /** A key is its own key: deriving it again changes nothing. */
  lemma SafeQueryIdempotent(q: string)
    ensures SafeQuery(SafeQuery(q)) == SafeQuery(q)
  {
    var key := SafeQuery(q);
    assert forall i :: 0 <= i < |key| ==> KeptChar(key[i]);
    FilterKeeps(key);
    assert ' ' !in key;
    assert StripRight(key) == key;
    ReplaceAbsent(key, ' ', '_');
  }

  /** A space between two alphanumeric words becomes an underscore. */
  lemma SpaceBecomesUnderscore(a: string, b: string)
    requires forall i :: 0 <= i < |a| ==> IsAlnum(a[i])
    requires forall i :: 0 <= i < |b| ==> IsAlnum(b[i])
    requires b != [] && |a| + 1 + |b| <= 50
    ensures SafeQuery(a + " " + b) == a + "_" + b
  {
    var q := a + " " + b;
    assert forall i :: 0 <= i < |q| ==> KeptChar(q[i]) by {
      forall i | 0 <= i < |q| ensures KeptChar(q[i]) {
        if i < |a| { assert q[i] == a[i]; } else if i > |a| { assert q[i] == b[i - |a| - 1]; }
      }
    }
    FilterKeeps(q);
    assert q[|q| - 1] == b[|b| - 1];
    assert StripRight(q) == q;
    ReplaceOneChar(q, ' ', '_');
    var r := Replace(q, " ", "_");
    assert forall i :: 0 <= i < |q| ==> r[i] == (a + "_" + b)[i] by {
      forall i | 0 <= i < |q| ensures r[i] == (a + "_" + b)[i] {
        if i < |a| { assert q[i] == a[i]; } else if i > |a| { assert q[i] == b[i - |a| - 1]; }
      }
    }
  }

  /** Dropped characters anywhere in the query do not affect the key. */
  lemma DroppedInsideIgnored(a: string, c: char, b: string)
    requires !KeptChar(c)
    ensures SafeQuery(a + [c] + b) == SafeQuery(a + b)
  {
    FilterConcat(a + [c], b);
    FilterSnoc(a, c);
    FilterConcat(a, b);
    assert Filter(a + [c]) == Filter(a);
    assert Filter(a + [c] + b) == Filter(a + b);
  }

  lemma {:induction false} FilterConcat(a: string, b: string)
    ensures Filter(a + b) == Filter(a) + Filter(b)
    decreases |b|
  {
    if |b| > 0 {
      var b0 := b[..|b| - 1];
      assert a + b == (a + b0) + [b[|b| - 1]];
      FilterSnoc(a + b0, b[|b| - 1]);
      FilterConcat(a, b0);
    } else {
      assert a + b == a;
    }
  }

  /** A cached literature search (`cached_at` is not modelled). */
  datatype CacheEntry<R> = CacheEntry(query: string, results: seq<R>, count: nat)

  /** `cache_literature_search`: the file named by the key is overwritten. */
  function CacheLiteratureSearch<R>(cache: map<string, CacheEntry<R>>, query: string, results: seq<R>):
    (c: map<string, CacheEntry<R>>)
    ensures SafeQuery(query) in c && c[SafeQuery(query)].results == results
    ensures c[SafeQuery(query)].count == |results| && c[SafeQuery(query)].query == query
    ensures forall k :: k in c && k != SafeQuery(query) ==> k in cache && c[k] == cache[k]
    ensures forall k :: k in cache ==> k in c
  {
    cache[SafeQuery(query) := CacheEntry(query, results, |results|)]
  }

  /** `get_cached_literature` without the age check. */
  function GetCachedLiterature<R>(cache: map<string, CacheEntry<R>>, query: string): (r: Option<seq<R>>)
    ensures r.Some? <==> SafeQuery(query) in cache
    ensures r.Some? ==> r.value == cache[SafeQuery(query)].results
  {
    if SafeQuery(query) in cache then Some(cache[SafeQuery(query)].results) else None
  }

  /** The reader finds what the writer stored, for the same query or any
      query that derives the same key. */
  lemma CacheRoundTrip<R>(cache: map<string, CacheEntry<R>>, query: string, other: string, results: seq<R>)
    requires SafeQuery(other) == SafeQuery(query)
    ensures GetCachedLiterature(CacheLiteratureSearch(cache, query, results), other) == Some(results)
  {
  }

  /** Queries differing only in dropped punctuation share a cache entry. */
  lemma PunctuationSharesEntry<R>(cache: map<string, CacheEntry<R>>, q: string, results: seq<R>)
    ensures GetCachedLiterature(CacheLiteratureSearch(cache, q, results), q + "?") == Some(results)
  {
    DroppedCharIgnored(q, '?');
  }

  /** An id that Python treats as false: missing or empty. */
  predicate MissingId(id: Option<string>) {
    id.None? || id.value == ""
  }

  // ---------------------------------------------------------------------
  // pathlib joining of the save paths
  // ---------------------------------------------------------------------

  /** A POSIX path as pathlib holds it: rooted or not, and its components. */
  datatype PurePath = PurePath(absolute: bool, parts: seq<string>)

  /** A single plain component: not empty, not "." and without a slash. */
  predicate PlainName(w: string) {
    w != "" && w != "." && '/' !in w
  }

  /** A slash-free piece of a path string as a component: "" and "." denote
      nothing. */
  function Piece(p: string): (r: seq<string>)
    requires '/' !in p
    ensures forall k :: 0 <= k < |r| ==> PlainName(r[k])
  {
    if p == "" || p == "." then [] else [p]
  }

  /** The components of a path string: the pieces between slashes, with
      empty and "." pieces dropped (".." is kept, as pathlib keeps it). */
  function Components(s: string): (r: seq<string>)
    ensures forall k :: 0 <= k < |r| ==> PlainName(r[k])
    decreases |s|
  {
    var i := IndexOf(s, '/');
    if i < 0 then Piece(s)
    else
      var head, rest := Piece(s[..i]), Components(s[i + 1..]);
      assert forall k :: 0 <= k < |head| + |rest| ==> (head + rest)[k] == if k < |head| then head[k] else rest[k - |head|];
      head + rest
  }

  /** `Path(s)` */
  function ParsePath(s: string): PurePath {
    PurePath(|s| > 0 && s[0] == '/', Components(s))
  }

  /** `p / name`: an absolute name replaces `p`, a relative one is appended. */
  function JoinPath(p: PurePath, name: string): (r: PurePath)
    ensures |name| > 0 && name[0] == '/' ==> r == ParsePath(name)
    ensures (|name| == 0 || name[0] != '/') ==> r.absolute == p.absolute && r.parts == p.parts + Components(name)
  {
    var q := ParsePath(name);
    if q.absolute then q else PurePath(p.absolute, p.parts + q.parts)
  }

  /** `str(p)`: "." for the empty relative path. */
  function PathText(p: PurePath): string {
    (if p.absolute then "/" else "") + (if p.parts == [] && !p.absolute then "." else Join("/", p.parts))
  }

  /** A plain component is its own component list. */
  lemma PlainComponents(w: string)
    requires PlainName(w)
    ensures Components(w) == [w]
  {
  }

  /** `data_dir / sub / f"{id}.json"` */
  function SavePath(dataDir: string, sub: string, id: string): PurePath {
    JoinPath(JoinPath(ParsePath(dataDir), sub), id + ".json")
  }

  function SessionPath(dataDir: string, id: string): PurePath {
    SavePath(dataDir, "sessions", id)
  }

  function HypothesisPath(dataDir: string, id: string): PurePath {
    SavePath(dataDir, "hypotheses", id)
  }

  /** An id without a leading slash lands in the subdirectory of the data
      directory; an id with one replaces the data directory altogether. */
  lemma SavePathPlacement(dataDir: string, sub: string, id: string)
    requires PlainName(sub) && id != ""
    ensures id[0] != '/' ==>
      (SavePath(dataDir, sub, id) ==
       PurePath(ParsePath(dataDir).absolute, Components(dataDir) + [sub] + Components(id + ".json")))
    ensures id[0] == '/' ==> SavePath(dataDir, sub, id) == ParsePath(id + ".json")
  {
    PlainComponents(sub);
  }

  /** The default data directory "./data" reads back as "data". */
  lemma DefaultDataDir()
    ensures ParsePath("./data") == PurePath(false, ["data"])
    ensures PathText(ParsePath("./data")) == "data"
  {
    var s := "./data";
    assert s[0] == '.' && s[1] == '/';
    IndexOfFirst(s, '/', 1);
    assert s[..1] == "." && s[2..] == "data";
    PlainComponents("data");
  }

  /** With a data directory of one relative component, a plain id is saved
      as `<dir>/<sub>/<id>.json`. */
  lemma PlainSavePath(dataDir: string, dir: string, sub: string, id: string)
    requires ParsePath(dataDir) == PurePath(false, [dir])
    requires PlainName(sub) && PlainName(id + ".json") && id != ""
    ensures PathText(SavePath(dataDir, sub, id)) == dir + "/" + sub + "/" + id + ".json"
  {
    SavePathPlacement(dataDir, sub, id);
    PlainComponents(id + ".json");
    assert (id + ".json")[0] == id[0];
    var file := id + ".json";
    var parts := [dir] + [sub] + [file];
    assert SavePath(dataDir, sub, id) == PurePath(false, parts);
    assert parts[1..] == [sub, file] && parts[1..][1..] == [file];
    assert Join("/", [sub, file]) == sub + "/" + file;
    assert Join("/", parts) == dir + "/" + (sub + "/" + file);
  }

  /** With the default data directory, a plain id is saved as
      `data/<sub>/<id>.json`. */
  lemma DefaultSavePath(sub: string, id: string)
    requires PlainName(sub) && PlainName(id + ".json") && id != ""
    ensures PathText(SavePath("./data", sub, id)) == "data" + "/" + sub + "/" + id + ".json"
  {
    DefaultDataDir();
    PlainSavePath("./data", "data", sub, id);
  }

  /** `sep.join` of two non-empty lists is the two joins around `sep`. */
  lemma {:induction false} JoinAppend(a: seq<string>, b: seq<string>)
    requires |a| > 0 && |b| > 0
    ensures Join("/", a + b) == Join("/", a) + "/" + Join("/", b)
    decreases |a|
  {
    assert (a + b)[1..] == if |a| == 1 then b else a[1..] + b;
    if |a| > 1 {
      JoinAppend(a[1..], b);
    }
  }

  /** Text before the component `w` in `str` of a path with parts
      `d + [w] + x`, and `w` right after it. */
  lemma SplitAtComponent(abs: bool, d: seq<string>, w: string, x: seq<string>)
    requires w != ""
    ensures var lead := (if abs then "/" else "") + (if d == [] then "" else Join("/", d) + "/");
      var t := PathText(PurePath(abs, d + [w] + x));
      |lead| < |t| && t[..|lead|] == lead && t[|lead|] == w[0]
  {
    var tail := [w] + x;
    assert Join("/", tail)[0] == w[0] by {
      if x != [] { JoinAppend([w], x); }
    }
    if d != [] {
      assert d + [w] + x == d + tail;
      JoinAppend(d, tail);
    } else {
      assert d + [w] + x == tail;
    }
  }

  /** `save_research_session`: the text of the path written to, or the
      ValueError raised for a session without an id. */
  function SaveResearchSession(dataDir: string, id: Option<string>): (r: Result<string>)
    ensures r.Failure? <==> MissingId(id)
    ensures r.Failure? ==> r.error == "Session must have an ID"
    ensures r.Success? ==> r.value == PathText(SessionPath(dataDir, id.value))
  {
    if MissingId(id) then Failure("Session must have an ID")
    else Success(PathText(SessionPath(dataDir, id.value)))
  }

  /** `save_hypothesis`, with the same id check. */
  function SaveHypothesis(dataDir: string, id: Option<string>): (r: Result<string>)
    ensures r.Failure? <==> MissingId(id)
    ensures r.Failure? ==> r.error == "Hypothesis must have an ID"
    ensures r.Success? ==> r.value == PathText(HypothesisPath(dataDir, id.value))
  {
    if MissingId(id) then Failure("Hypothesis must have an ID")
    else Success(PathText(HypothesisPath(dataDir, id.value)))
  }

  /** A session and a hypothesis with the same id are written to one path
      exactly when the id starts with a slash, which discards the data
      directory. */
  lemma SavePathsDistinct(dataDir: string, id: string)
    requires id != ""
    ensures SessionPath(dataDir, id) == HypothesisPath(dataDir, id) <==> id[0] == '/'
    ensures SaveResearchSession(dataDir, Some(id)).value == SaveHypothesis(dataDir, Some(id)).value <==> id[0] == '/'
  {
    assert PlainName("sessions") && PlainName("hypotheses");
    SavePathPlacement(dataDir, "sessions", id);
    SavePathPlacement(dataDir, "hypotheses", id);
    if id[0] != '/' {
      var abs, d, x := ParsePath(dataDir).absolute, Components(dataDir), Components(id + ".json");
      assert SessionPath(dataDir, id).parts[|d|] == "sessions";
      assert HypothesisPath(dataDir, id).parts[|d|] == "hypotheses";
      SplitAtComponent(abs, d, "sessions", x);
      SplitAtComponent(abs, d, "hypotheses", x);
    }
  }
}
