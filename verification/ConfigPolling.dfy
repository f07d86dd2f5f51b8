/** The file poller, which calls back only when a file's contents changed, and the broker
    configuration kept from those callbacks.
  */
module ConfigPolling {
  import opened Options

  type Path = string
  type Content = string   // a file that cannot be read has no contents

  // ---------- What the callbacks see ----------

  // The observations that differ from the one before; before the first there were no contents.
  function Kept(seen: seq<Content>): seq<Content> {
    if seen == [] then []
    else
      var n := |seen| - 1;
      Kept(seen[..n]) + if seen[n] != Last(seen[..n]) then [seen[n]] else []
  }

  function Last(seen: seq<Content>): Content {
    if seen == [] then "" else seen[|seen| - 1]
  }

  lemma KeptOneMore(seen: seq<Content>, b: Content)
    ensures Kept(seen + [b]) == Kept(seen) + if b != Last(seen) then [b] else []
    ensures Last(seen + [b]) == b
  {
    assert (seen + [b])[..|seen|] == seen;
  }

  // What remains starts with contents, never repeats itself, and ends with the last observation.
  lemma {:induction false} KeptNeverRepeats(seen: seq<Content>)
    ensures var k := Kept(seen);
            && (k != [] ==> k[0] != "")
            && (forall i :: 0 < i < |k| ==> k[i] != k[i - 1])
            && Last(k) == Last(seen)
    decreases |seen|
  {
    if seen != [] {
      KeptNeverRepeats(seen[..|seen| - 1]);
    }
  }

  // Nothing else is lost: the observations are the kept contents, after no contents, each held
  // for some time. Observation i is kept contents number |Kept(seen[..i + 1])|, counting from
  // one, and that number grows by at most one from an observation to the next.
  lemma {:induction false} KeptIsEveryChange(seen: seq<Content>, i: nat)
    requires i < |seen|
    ensures var n := |Kept(seen[..i + 1])|;
            && n <= |Kept(seen)|
            && ([""] + Kept(seen))[n] == seen[i]
            && |Kept(seen[..i])| <= n <= |Kept(seen[..i])| + 1
    decreases |seen|
  {
    var before, b := seen[..|seen| - 1], seen[|seen| - 1];
    assert seen == before + [b];
    KeptOneMore(before, b);
    if i < |before| {
      KeptIsEveryChange(before, i);
      assert before[..i + 1] == seen[..i + 1] && before[..i] == seen[..i];
      var n := |Kept(seen[..i + 1])|;
      assert ([""] + Kept(seen))[n] == ([""] + Kept(before))[n];
    } else {
      assert seen[..i + 1] == seen && seen[..i] == before;
      LastKept(seen);
    }
  }

  lemma LastKept(seen: seq<Content>)
    ensures ([""] + Kept(seen))[|Kept(seen)|] == Last(seen)
  {
    KeptNeverRepeats(seen);
  }

  // ---------- The configuration ----------

  function OnContent<C>(config: Option<C>, content: Content, parse: Content -> Option<C>): Option<C> {
    if content == "" || parse(content).None? then config else parse(content)
  }

  function OnAll<C>(contents: seq<Content>, parse: Content -> Option<C>): Option<C> {
    if contents == [] then None
    else OnContent(OnAll(contents[..|contents| - 1], parse), contents[|contents| - 1], parse)
  }

  // The parse of the latest contents that are there and valid.
  ghost predicate IsLatest<C>(config: Option<C>, seen: seq<Content>, parse: Content -> Option<C>) {
    match config
    case None => forall i :: 0 <= i < |seen| ==> seen[i] == "" || parse(seen[i]).None?
    case Some(c) =>
      exists i :: 0 <= i < |seen| && seen[i] != "" && parse(seen[i]) == Some(c)
        && forall j :: i < j < |seen| ==> seen[j] == "" || parse(seen[j]).None?
  }

  lemma {:induction false} OnAllIsLatest<C>(seen: seq<Content>, parse: Content -> Option<C>)
    ensures IsLatest(OnAll(seen, parse), seen, parse)
    decreases |seen|
  {
    if seen != [] {
      var n := |seen| - 1;
      var before := seen[..n];
      OnAllIsLatest(before, parse);
      if seen[n] == "" || parse(seen[n]).None? {
        if OnAll(before, parse).Some? {
          var i :| 0 <= i < |before| && before[i] != "" && parse(before[i]) == OnAll(before, parse)
                   && forall j :: i < j < |before| ==> before[j] == "" || parse(before[j]).None?;
          assert seen[i] == before[i] && forall j :: i < j < |seen| ==> j == n || seen[j] == before[j];
        } else {
          assert forall j :: 0 <= j < |seen| ==> j == n || seen[j] == before[j];
        }
      } else {
        assert seen[n] != "" && parse(seen[n]) == OnAll(seen, parse);
      }
    }
  }

  // Suppressing repeated contents changes nothing: the configuration is always the one that
  // parsing every single observation would give.
  lemma {:induction false} CacheIsTransparent<C>(seen: seq<Content>, parse: Content -> Option<C>)
    ensures OnAll(Kept(seen), parse) == OnAll(seen, parse)
    decreases |seen|
  {
    if seen != [] {
      var n := |seen| - 1;
      var before := seen[..n];
      CacheIsTransparent(before, parse);
      if seen[n] != Last(before) {
        assert (Kept(before) + [seen[n]])[..|Kept(before)|] == Kept(before);
      } else {
        assert Kept(seen) == Kept(before);
      }
    }
  }

  // ---------- The objects ----------

  // Every path is added once, so a file has one callback.
  datatype PolledFile = PolledFile(cached: Content, calls: seq<Content>)

  function Polled(f: PolledFile, b: Content): PolledFile {
    if f.cached != b then PolledFile(b, f.calls + [b]) else f
  }

  lemma PolledOneMore(f: PolledFile, seen: seq<Content>, b: Content)
    requires f.cached == Last(seen) && f.calls == Kept(seen)
    ensures Polled(f, b).cached == Last(seen + [b]) && Polled(f, b).calls == Kept(seen + [b])
  {
    KeptOneMore(seen, b);
  }

  class FilePoller {
    var files: map<Path, PolledFile>
    ghost var seen: map<Path, seq<Content>>   // what the polls of each file read so far

    ghost predicate Valid()
      reads this
    {
      && files.Keys == seen.Keys
      && forall p <- files :: files[p].cached == Last(seen[p]) && files[p].calls == Kept(seen[p])
    }

    constructor ()
      ensures Valid() && files == map[]
    {
      files, seen := map[], map[];
    }

    method Add(path: Path)
      requires Valid() && path !in files
      modifies this
      ensures Valid() && seen == old(seen)[path := []] && files == old(files)[path := PolledFile("", [])]
    {
      files := files[path := PolledFile("", [])];
      seen := seen[path := []];
    }

    method GetContent(path: Path) returns (r: Result<Content, string>)
      requires Valid()
      ensures r == if path in seen then Success(Last(seen[path])) else Failure("file is not being polled")
    {
      return if path in files then Success(files[path].cached) else Failure("file is not being polled");
    }

    method Poll(read: Path -> Content)
      requires Valid()
      modifies this
      ensures Valid() && seen.Keys == old(seen).Keys
      ensures forall p <- seen :: seen[p] == old(seen)[p] + [read(p)]
      ensures forall p <- files :: files[p] == Polled(old(files)[p], read(p))
    {
      ghost var was, before := files, seen;
      var todo := files.Keys;
      while todo != {}
        invariant todo <= was.Keys && files.Keys == was.Keys
        invariant forall p <- was :: files[p] == if p in todo then was[p] else Polled(was[p], read(p))
        invariant seen == before
      {
        var path :| path in todo;
        todo := todo - {path};
        var b := read(path);
        if files[path].cached != b {
          files := files[path := PolledFile(b, files[path].calls + [b])];
        }
      }
      seen := map p | p in before :: before[p] + [read(p)];
      forall p <- files ensures files[p].cached == Last(seen[p]) && files[p].calls == Kept(seen[p]) {
        assert was[p].cached == Last(before[p]) && was[p].calls == Kept(before[p]);
        PolledOneMore(was[p], before[p], read(p));
      }
    }
  }

  class ConfigPoller<C(==)> {
    var config: Option<C>
    var notified: seq<C>    // configurations passed on, in order

    constructor ()
      ensures config == None && notified == []
    {
      config, notified := None, [];
    }

    method Update(content: Content, parse: Content -> Option<C>)
      modifies this
      ensures config == OnContent(old(config), content, parse)
      ensures notified == old(notified) + if content != "" && parse(content).Some? then [parse(content).value] else []
    {
      if |content| == 0 {
        return;
      }
      var parsed := parse(content);
      if parsed == None {
        return;
      }
      config := parsed;
      notified := notified + [parsed.value];
    }
  }

  // An observation that repeats the last one leaves the configuration as it is.
  lemma OnOneMore<C>(seen: seq<Content>, b: Content, parse: Content -> Option<C>)
    ensures var config := OnAll(seen, parse);
            OnAll(seen + [b], parse) == if b == Last(seen) then config else OnContent(config, b, parse)
  {
    CacheIsTransparent(seen, parse);
    CacheIsTransparent(seen + [b], parse);
    KeptOneMore(seen, b);
    assert (Kept(seen) + [b])[..|Kept(seen)|] == Kept(seen);
  }

  // One period: a poll of all files, with the broker configuration as the callback of one of
  // them. Before and after, the configuration is that of the latest valid contents observed.
  method Period<C(==)>(
    files: FilePoller, broker: ConfigPoller<C>, path: Path, read: Path -> Content, parse: Content -> Option<C>)
    requires files.Valid() && path in files.seen
    requires broker.config == OnAll(files.seen[path], parse)
    modifies files, broker
    ensures files.Valid() && path in files.seen && files.seen[path] == old(files.seen[path]) + [read(path)]
    ensures broker.config == OnAll(files.seen[path], parse)
    ensures IsLatest(broker.config, files.seen[path], parse)
  {
    ghost var before := files.seen[path];
    var cached := files.files[path].cached;
    files.Poll(read);
    OnOneMore(before, read(path), parse);
    if files.files[path].cached != cached {
      broker.Update(read(path), parse);
    }
    OnAllIsLatest(files.seen[path], parse);
  }
}
