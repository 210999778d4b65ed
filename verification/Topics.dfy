/** The manifest of topics, name resolution and the executor's subscription list. */
module Topics {
  import opened Options
  import opened Text

  datatype TopicEntry = TopicEntry(topic: string, domain: string)

  datatype ManifestError = NoTopics | EmptyName | EmptyTopic | EmptyDomain

  /** Name (trimmed) to topic (trimmed). */
  type Names = map<string, string>

  /** An entry the manifest may hold. */
  predicate GoodEntry(name: string, e: TopicEntry) {
    !IsBlank(name) && !IsBlank(e.topic) && !IsBlank(e.domain)
  }

  function Objection(name: string, e: TopicEntry): Option<ManifestError> {
    if IsBlank(name) then Some(EmptyName)
    else if IsBlank(e.topic) then Some(EmptyTopic)
    else if IsBlank(e.domain) then Some(EmptyDomain)
    else None
  }

  lemma ObjectionTells(name: string, e: TopicEntry)
    ensures Objection(name, e).None? <==> GoodEntry(name, e)
  {
  }

  /** A manifest that is accepted. */
  predicate Acceptable(file: map<string, TopicEntry>) {
    file != map[] && forall k {:trigger GoodEntry(k, file[k])} :: k in file ==> GoodEntry(k, file[k])
  }

  /** What an entry says once it is trimmed. */
  datatype Binding = Binding(name: string, topic: string)

  /** The entries of a manifest, by the key they are written under. */
  type Bindings = map<string, Binding>

  function Trimmed(file: map<string, TopicEntry>): Bindings {
    map k | k in file :: Binding(TrimSpace(k), TrimSpace(file[k].topic))
  }

  // ---- Reading a manifest, whose entries come in any order ----

  /** The map after reading these entries in order: of those that bind one name the last wins. */
  function ReadIn(entries: seq<Binding>): Names {
    if entries == [] then map[]
    else
      var last := entries[|entries| - 1];
      ReadIn(entries[..|entries| - 1])[last.name := last.topic]
  }

  /** The entries under the given keys, in that order. */
  function Listed(file: Bindings, order: seq<string>): (r: seq<Binding>)
    requires forall k :: k in order ==> k in file
    ensures |r| == |order| && forall i :: 0 <= i < |r| ==> r[i] == file[order[i]]
  {
    seq(|order|, i requires 0 <= i < |order| => file[order[i]])
  }

  /** Each entry once. */
  ghost predicate Order(order: seq<string>, file: Bindings) {
    && (forall i, k :: 0 <= i < k < |order| ==> order[i] != order[k])
    && (forall k :: k in order <==> k in file)
  }

  /** The map is what some order of reading makes of the manifest. */
  ghost predicate Loads(names: Names, file: Bindings) {
    exists order :: Order(order, file) && names == ReadIn(Listed(file, order))
  }

  lemma ReadNext(entries: seq<Binding>, e: Binding)
    ensures ReadIn(entries + [e]) == ReadIn(entries)[e.name := e.topic]
  {
    assert (entries + [e])[..|entries|] == entries;
  }

  lemma ListedNext(file: Bindings, order: seq<string>, k: string)
    requires k in file && forall x :: x in order ==> x in file
    ensures ReadIn(Listed(file, order + [k])) == ReadIn(Listed(file, order))[file[k].name := file[k].topic]
  {
    assert Listed(file, order + [k]) == Listed(file, order) + [file[k]];
    ReadNext(Listed(file, order), file[k]);
  }

  /** All entries but those under `left` have been read, in this order, and were good. */
  ghost predicate Read(file: map<string, TopicEntry>, left: set<string>, order: seq<string>, names: Names) {
    && (forall k :: k in order <==> k in file && k !in left)
    && (forall i, k :: 0 <= i < k < |order| ==> order[i] != order[k])
    && (forall k {:trigger GoodEntry(k, file[k])} :: k in order ==> GoodEntry(k, file[k]))
    && names == ReadIn(Listed(Trimmed(file), order))
  }

  lemma ReadOne(file: map<string, TopicEntry>, left: set<string>, order: seq<string>, names: Names, k: string)
    requires Read(file, left, order, names) && k in left && k in file && GoodEntry(k, file[k])
    ensures Read(file, left - {k}, order + [k], names[TrimSpace(k) := TrimSpace(file[k].topic)])
  {
    ListedNext(Trimmed(file), order, k);
  }

  lemma ReadAll(file: map<string, TopicEntry>, order: seq<string>, names: Names)
    requires Read(file, {}, order, names)
    ensures Loads(names, Trimmed(file))
    ensures file != map[] ==> Acceptable(file)
  {
    assert Order(order, Trimmed(file));
  }

  /** What is read later wins. */
  lemma {:induction false} ReadJoin(first: seq<Binding>, rest: seq<Binding>)
    ensures ReadIn(first + rest) == ReadIn(first) + ReadIn(rest)
  {
    if rest == [] {
      assert first + rest == first;
    } else {
      var before, last := rest[..|rest| - 1], rest[|rest| - 1];
      ReadJoin(first, before);
      assert first + rest == (first + before) + [last];
      ReadNext(first + before, last);
    }
  }

  /** The names are those of the entries, and each stands for the topic of an entry that binds it. */
  lemma {:induction false} ReadDraws(entries: seq<Binding>)
    ensures forall e :: e in entries ==> e.name in ReadIn(entries)
    ensures forall n :: n in ReadIn(entries) ==> Binding(n, ReadIn(entries)[n]) in entries
  {
    if entries != [] {
      ReadDraws(entries[..|entries| - 1]);
    }
  }

  /** Every entry's name is in the map. */
  lemma LoadedHas(names: Names, file: Bindings, k: string)
    requires Loads(names, file) && k in file
    ensures file[k].name in names
  {
    var order :| Order(order, file) && names == ReadIn(Listed(file, order));
    ReadDraws(Listed(file, order));
    var i :| 0 <= i < |order| && order[i] == k;
    assert Listed(file, order)[i] == file[k];
  }

  /** Every name in the map stands for the topic of an entry that binds it. */
  lemma LoadedDraws(names: Names, file: Bindings, n: string) returns (k: string)
    requires Loads(names, file) && n in names
    ensures k in file && file[k] == Binding(n, names[n])
  {
    var order :| Order(order, file) && names == ReadIn(Listed(file, order));
    ReadDraws(Listed(file, order));
    var i :| 0 <= i < |order| && Listed(file, order)[i] == Binding(n, names[n]);
    k := order[i];
  }

  lemma {:induction false} Listing(keys: set<string>) returns (order: seq<string>)
    ensures (forall k :: k in order <==> k in keys) && forall i, k :: 0 <= i < k < |order| ==> order[i] != order[k]
  {
    if keys == {} {
      order := [];
    } else {
      var k :| k in keys;
      var rest := Listing(keys - {k});
      order := rest + [k];
    }
  }

  /** The name stands for the topic of one of these entries. */
  ghost predicate DrawnFrom(names: Names, file: Bindings, keys: set<string>, n: string) {
    n in names && exists m :: m in keys && m in file && file[m] == Binding(n, names[n])
  }

  /** Any part of the entries may be read last, and then decides the names it binds. */
  lemma LoadEnding(file: Bindings, late: set<string>) returns (names: Names)
    requires late <= file.Keys
    ensures Loads(names, file)
    ensures forall k :: k in late ==> DrawnFrom(names, file, late, file[k].name)
  {
    var first := Listing(file.Keys - late);
    var rest := Listing(late);
    forall i, k | 0 <= i < k < |first + rest| ensures (first + rest)[i] != (first + rest)[k] {
      if i < |first| <= k {
        assert first[i] in first && rest[k - |first|] in rest;
      }
    }
    assert Order(first + rest, file);
    assert Listed(file, first + rest) == Listed(file, first) + Listed(file, rest);
    names := ReadIn(Listed(file, first + rest));
    ReadJoin(Listed(file, first), Listed(file, rest));
    forall k | k in late ensures DrawnFrom(names, file, late, file[k].name) {
      LateDraws(file, ReadIn(Listed(file, first)), rest, late, k);
    }
  }

  lemma LateDraws(file: Bindings, names: Names, rest: seq<string>, late: set<string>, k: string)
    requires (forall x :: x in rest <==> x in late) && late <= file.Keys && k in late
    ensures DrawnFrom(names + ReadIn(Listed(file, rest)), file, late, file[k].name)
  {
    var entries, read := Listed(file, rest), ReadIn(Listed(file, rest));
    ReadDraws(entries);
    var i :| 0 <= i < |rest| && rest[i] == k;
    assert entries[i] == file[k];
    var l :| 0 <= l < |entries| && entries[l] == Binding(file[k].name, read[file[k].name]);
    assert rest[l] in late;
  }

  lemma LoadEndingWith(file: Bindings, k: string) returns (names: Names)
    requires k in file
    ensures Loads(names, file) && file[k].name in names && names[file[k].name] == file[k].topic
  {
    names := LoadEnding(file, {k});
    assert k in {k};
  }

  // ---- Two processes, two loads of one manifest ----

  /** No name is bound to two topics. */
  predicate Unambiguous(file: Bindings) {
    forall k, m :: k in file && m in file && file[k].name == file[m].name ==> file[k].topic == file[m].topic
  }

  /** The entry's topic is the one its name stands for, whatever the order of reading. */
  predicate Settled(file: Bindings, k: string)
    requires k in file
  {
    forall m :: m in file && file[m].name == file[k].name ==> file[m].topic == file[k].topic
  }

  /** Some name stands for the topic, whatever the order of reading. */
  predicate Certain(file: Bindings, topic: string) {
    exists k :: k in file && file[k].topic == topic && Settled(file, k)
  }

  /** Every topic of the manifest has a settled entry. */
  predicate Covering(file: Bindings) {
    forall k :: k in file ==> Certain(file, file[k].topic)
  }

  lemma UnambiguousLoad(file: Bindings, a: Names, b: Names)
    requires Unambiguous(file) && Loads(a, file) && Loads(b, file)
    ensures a == b
  {
    forall n | n in a || n in b ensures n in a && n in b && a[n] == b[n] {
      if n in a {
        var k := LoadedDraws(a, file, n);
        LoadedHas(b, file, k);
        var m := LoadedDraws(b, file, n);
      } else {
        var k := LoadedDraws(b, file, n);
        LoadedHas(a, file, k);
      }
    }
  }

  lemma AmbiguousLoads(file: Bindings) returns (a: Names, b: Names)
    requires !Unambiguous(file)
    ensures Loads(a, file) && Loads(b, file) && a != b
  {
    var k, m :| k in file && m in file && file[k].name == file[m].name && file[k].topic != file[m].topic;
    a := LoadEndingWith(file, k);
    b := LoadEndingWith(file, m);
  }

  /** All processes resolve every name alike exactly when no name is ambiguous. */
  lemma LoadsAgree(file: Bindings)
    ensures (forall a, b :: Loads(a, file) && Loads(b, file) ==> a == b) <==> Unambiguous(file)
  {
    if Unambiguous(file) {
      forall a, b | Loads(a, file) && Loads(b, file) ensures a == b {
        UnambiguousLoad(file, a, b);
      }
    } else {
      var a, b := AmbiguousLoads(file);
    }
  }

  lemma CertainIsLoaded(file: Bindings, names: Names, topic: string)
    requires Certain(file, topic) && Loads(names, file)
    ensures topic in names.Values
  {
    var k :| k in file && file[k].topic == topic && Settled(file, k);
    LoadedHas(names, file, k);
    var m := LoadedDraws(names, file, file[k].name);
  }

  lemma CoveredTopicIsLoaded(file: Bindings, enqueuer: Names, executor: Names, name: string)
    requires Covering(file) && Loads(enqueuer, file) && Loads(executor, file) && name in enqueuer
    ensures enqueuer[name] in executor.Values
  {
    var k := LoadedDraws(enqueuer, file, name);
    CertainIsLoaded(file, executor, file[k].topic);
  }

  /** Reading the entries of a topic first leaves it out, unless one of them is settled. */
  lemma LoadedWithout(file: Bindings, topic: string) returns (names: Names)
    requires !Certain(file, topic)
    ensures Loads(names, file) && topic !in names.Values
  {
    var late := set k | k in file && file[k].topic != topic;
    names := LoadEnding(file, late);
    forall n | n in names ensures names[n] != topic {
      var k := LoadedDraws(names, file, n);
      if !Settled(file, k) {
        var m :| m in file && file[m].name == n && file[m].topic != file[k].topic;
        assert file[m].topic != topic ==> m in late;
      }
    }
  }

  /** Two loads under which jobs of some name go where the executor does not listen. */
  lemma UncoveredTopicIsLost(file: Bindings) returns (enqueuer: Names, executor: Names, name: string)
    requires !Covering(file)
    ensures Loads(enqueuer, file) && Loads(executor, file)
    ensures name in enqueuer && enqueuer[name] !in executor.Values
  {
    var k :| k in file && !Certain(file, file[k].topic);
    name := file[k].name;
    enqueuer := LoadEndingWith(file, k);
    executor := LoadedWithout(file, file[k].topic);
  }

  /**
   The executor subscribes to every topic jobs are published to, for every
   order in which either process reads the manifest, exactly when every topic
   has a settled entry.
   */
  lemma HeardExactlyWhenCovering(file: Bindings)
    ensures (forall enqueuer, executor ::
               Loads(enqueuer, file) && Loads(executor, file) ==> enqueuer.Values <= executor.Values)
            <==> Covering(file)
  {
    if Covering(file) {
      forall enqueuer, executor | Loads(enqueuer, file) && Loads(executor, file)
        ensures enqueuer.Values <= executor.Values
      {
        forall topic | topic in enqueuer.Values ensures topic in executor.Values {
          var name :| name in enqueuer && enqueuer[name] == topic;
          CoveredTopicIsLoaded(file, enqueuer, executor, name);
        }
      }
    } else {
      var enqueuer, executor, name := UncoveredTopicIsLost(file);
      assert enqueuer[name] in enqueuer.Values;
    }
  }

  /** Without ambiguous names every topic has a settled entry. */
  lemma UnambiguousCovers(file: Bindings)
    requires Unambiguous(file)
    ensures Covering(file)
  {
    forall k | k in file ensures Certain(file, file[k].topic) {
      assert Settled(file, k);
    }
  }

  /** One name, written in two ways, with two topics. */
  const COLLIDING := map["a" := TopicEntry("t", "d"), " a" := TopicEntry("u", "d")]

  lemma LetterTrimmed(c: char)
    requires !IsSpace(c)
    ensures TrimSpace([c]) == [c] && TrimSpace([' ', c]) == [c]
  {
    assert [' ', c][1..] == [c];
  }

  lemma LetterEntry(c: char, t: char, d: char)
    requires !IsSpace(c) && !IsSpace(t) && !IsSpace(d)
    ensures GoodEntry([c], TopicEntry([t], [d])) && GoodEntry([' ', c], TopicEntry([t], [d]))
    ensures TrimSpace([c]) == [c] && TrimSpace([' ', c]) == [c] && TrimSpace([t]) == [t]
  {
    LetterTrimmed(c);
    LetterTrimmed(t);
    LetterTrimmed(d);
  }

  /** Accepted without complaint, and yet jobs can be published where nobody listens. */
  lemma CollidingManifestLosesJobs() returns (enqueuer: Names, executor: Names)
    ensures Acceptable(COLLIDING)
    ensures Loads(enqueuer, Trimmed(COLLIDING)) && Loads(executor, Trimmed(COLLIDING))
    ensures Resolved(enqueuer, "a") == Some("t") && "t" !in executor.Values
  {
    CollidingTrimmed();
    enqueuer, executor := CollidingLoads(Trimmed(COLLIDING));
  }

  lemma CollidingLoads(file: Bindings) returns (enqueuer: Names, executor: Names)
    requires file == map["a" := Binding("a", "t"), " a" := Binding("a", "u")]
    ensures Loads(enqueuer, file) && Loads(executor, file)
    ensures "a" in enqueuer && enqueuer["a"] == "t" && "t" !in executor.Values
  {
    enqueuer := LoadEndingWith(file, "a");
    assert file[" a"] == Binding("a", "u");
    executor := LoadedWithout(file, "t");
  }

  lemma CollidingTrimmed()
    ensures Acceptable(COLLIDING) && TrimSpace("a") == "a"
    ensures Trimmed(COLLIDING) == map["a" := Binding("a", "t"), " a" := Binding("a", "u")]
  {
    LetterEntry('a', 't', 'd');
    LetterEntry('a', 'u', 'd');
    var first := map["a" := TopicEntry("t", "d")];
    assert COLLIDING == first[" a" := TopicEntry("u", "d")];
    OneMoreAcceptable(map[], "a", TopicEntry("t", "d"));
    OneMoreAcceptable(first, " a", TopicEntry("u", "d"));
    OneMoreTrimmed(map[], "a", TopicEntry("t", "d"), Binding("a", "t"));
    OneMoreTrimmed(first, " a", TopicEntry("u", "d"), Binding("a", "u"));
  }

  lemma OneMoreTrimmed(file: map<string, TopicEntry>, k: string, e: TopicEntry, b: Binding)
    requires b == Binding(TrimSpace(k), TrimSpace(e.topic))
    ensures Trimmed(file[k := e]) == Trimmed(file)[k := b]
  {
    var more := file[k := e];
    assert Trimmed(more).Keys == Trimmed(file)[k := b].Keys;
    forall x | x in more ensures Trimmed(more)[x] == Trimmed(file)[k := b][x] {
      assert x != k ==> more[x] == file[x];
    }
  }

  lemma OneMoreAcceptable(file: map<string, TopicEntry>, k: string, e: TopicEntry)
    requires (file == map[] || Acceptable(file)) && GoodEntry(k, e)
    ensures Acceptable(file[k := e])
  {
    assert k in file[k := e];
  }

  /** The same entries once trimmed, with both topics also under names of their own. */
  const BACKED_UP := map[
    "a" := Binding("a", "t"), " a" := Binding("a", "u"), "b" := Binding("b", "t"), "c" := Binding("c", "u")]

  /** Ambiguous, and all topics subscribed to all the same: ambiguity alone loses no job. */
  lemma AmbiguousYetCovering()
    ensures !Unambiguous(BACKED_UP) && Covering(BACKED_UP)
  {
    assert BACKED_UP["a"].topic != BACKED_UP[" a"].topic;
    assert Settled(BACKED_UP, "b") && Settled(BACKED_UP, "c");
  }

  class FileTopicResolver {
    var byName: Names

    constructor (byName: Names)
      ensures this.byName == byName
    {
      this.byName := byName;
    }

    method Resolve(jobName: string) returns (topic: Option<string>)
      ensures topic == Resolved(byName, jobName)
      ensures forall name :: Neat(name) && Padded(jobName, name) ==>
                topic == if name != "" && name in byName then Some(byName[name]) else None
    {
      forall name | Neat(name) && Padded(jobName, name) ensures TrimSpace(jobName) == name {
        TrimmingExactly(jobName, name);
      }
      var name := TrimSpace(jobName);
      if name == "" {
        return None;
      }
      topic := if name in byName then Some(byName[name]) else None;
    }

    /** The distinct topics, in whatever order the map yields them. */
    method UniqueTopics() returns (topics: seq<string>)
      ensures Subscribes(topics, byName)
    {
      var seen: set<string> := {};
      topics := [];
      var names := byName.Keys;
      while names != {}
        invariant names <= byName.Keys
        invariant forall t :: t in seen <==> t in topics
        invariant forall i, k :: 0 <= i < k < |topics| ==> topics[i] != topics[k]
        invariant forall t :: t in topics <==> exists n :: n in byName && n !in names && byName[n] == t
        decreases names
      {
        var name :| name in names;
        var topic := byName[name];
        if topic !in seen {
          seen := seen + {topic};
          topics := topics + [topic];
        }
        names := names - {name};
      }
    }
  }

  /** Loaded names are trimmed already, and resolve to their topics. */
  lemma LoadedResolves(names: Names, file: map<string, TopicEntry>, name: string)
    requires Acceptable(file) && Loads(names, Trimmed(file)) && name in names
    ensures Resolved(names, name) == Some(names[name])
  {
    var k := LoadedDraws(names, Trimmed(file), name);
    assert GoodEntry(k, file[k]);
    TrimIdempotent(k);
  }

  /** Not a blank in it. */
  predicate Complete(k: string, e: TopicEntry) {
    !OnlySpace(k) && !OnlySpace(e.topic) && !OnlySpace(e.domain)
  }

  /** What each objection means. */
  predicate Wrong(k: string, e: TopicEntry, why: ManifestError) {
    match why
    case NoTopics => false
    case EmptyName => OnlySpace(k)
    case EmptyTopic => !OnlySpace(k) && OnlySpace(e.topic)
    case EmptyDomain => !OnlySpace(k) && !OnlySpace(e.topic) && OnlySpace(e.domain)
  }

  lemma ObjectionExactly(k: string, e: TopicEntry)
    ensures GoodEntry(k, e) <==> Complete(k, e)
    ensures forall why :: Objection(k, e) == Some(why) <==> Wrong(k, e, why)
  {
    BlankIsOnlySpace(k);
    BlankIsOnlySpace(e.topic);
    BlankIsOnlySpace(e.domain);
  }

  lemma AcceptableExactly(file: map<string, TopicEntry>)
    ensures Acceptable(file) <==> file != map[] && forall k :: k in file ==> Complete(k, file[k])
  {
    forall k | k in file ensures GoodEntry(k, file[k]) <==> Complete(k, file[k]) {
      ObjectionExactly(k, file[k]);
    }
  }

  /** A name written without outer white space, and written once, stands for the topic written beside it. */
  lemma WrittenIsLoaded(file: map<string, TopicEntry>, names: Names, k: string)
    requires Loads(names, Trimmed(file)) && k in file && Neat(k) && Neat(file[k].topic)
    requires forall m :: m in file && Padded(m, k) ==> m == k
    ensures k in names && names[k] == file[k].topic
  {
    NeatIsTrimmed(k);
    NeatIsTrimmed(file[k].topic);
    LoadedHas(names, Trimmed(file), k);
    var m := LoadedDraws(names, Trimmed(file), k);
    TrimmingExactly(m, k);
  }

  function Resolved(byName: Names, jobName: string): Option<string> {
    var name := TrimSpace(jobName);
    if name != "" && name in byName then Some(byName[name]) else None
  }

  /** `topics` lists the image of the map, each topic once. */
  ghost predicate Subscribes(topics: seq<string>, byName: Names) {
    && (forall i, k :: 0 <= i < k < |topics| ==> topics[i] != topics[k])
    && (forall t :: t in topics <==> exists n :: n in byName && byName[n] == t)
  }

  /**
   Builds the resolver, reading the entries in any order.  It is refused
   exactly when the manifest is empty or some entry is incomplete.
   */
  method NewFileTopicResolver(file: map<string, TopicEntry>)
    returns (r: Option<FileTopicResolver>, why: Option<ManifestError>)
    ensures r.Some? <==> Acceptable(file)
    ensures r.Some? <==> file != map[] && forall k :: k in file ==> Complete(k, file[k])
    ensures r.Some? <==> why.None?
    ensures r.Some? ==> fresh(r.value) && Loads(r.value.byName, Trimmed(file))
    ensures why.Some? ==>
              if file == map[] then why.value == NoTopics
              else exists k :: k in file && Wrong(k, file[k], why.value)
  {
    AcceptableExactly(file);
    if |file| == 0 {
      return None, Some(NoTopics);
    }
    var byName: Names := map[];
    ghost var order: seq<string> := [];
    var keys := file.Keys;
    while keys != {}
      invariant keys <= file.Keys && Read(file, keys, order, byName)
      decreases keys
    {
      var name :| name in keys;
      var problem := Objection(name, file[name]);
      ObjectionTells(name, file[name]);
      ObjectionExactly(name, file[name]);
      if problem.Some? {
        return None, problem;
      }
      ReadOne(file, keys, order, byName, name);
      byName := byName[TrimSpace(name) := TrimSpace(file[name].topic)];
      order := order + [name];
      keys := keys - {name};
    }
    ReadAll(file, order, byName);
    var resolver := new FileTopicResolver(byName);
    r, why := Some(resolver), None;
  }
}
