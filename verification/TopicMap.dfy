/**
 The generator of the aggregate-to-topic map: it walks the contexts directory,
 registers every exported aggregate class under its module, and sorts the result.
 A file stands for the class names its source exports.
 */
module TopicMap {
  import opened Options

  datatype Entry =
    | Dir(name: string, entries: seq<Entry>)
    | File(name: string, classes: seq<string>)
    | Other(name: string)

  datatype Mapping = Mapping(className: string, moduleName: string)

  datatype Ambiguity = Ambiguity(className: string, first: string, second: string)

  // ----- The walk

  predicate EndsWith(s: string, suffix: string) {
    |suffix| <= |s| && s[|s| - |suffix|..] == suffix
  }

  predicate IsAggregateFile(e: Entry) {
    e.File? && EndsWith(e.name, ".aggregate.ts") && !EndsWith(e.name, ".spec.ts")
  }

  /** The files below a directory, subdirectories included, in enumeration order. */
  function Walk(entries: seq<Entry>): seq<Entry> {
    if entries == [] then []
    else
      var first := match entries[0]
                   case Dir(_, inner) => Walk(inner)
                   case _ => if IsAggregateFile(entries[0]) then [entries[0]] else [];
      first + Walk(entries[1..])
  }

  lemma {:induction false} WalkConcat(first: seq<Entry>, second: seq<Entry>)
    ensures Walk(first + second) == Walk(first) + Walk(second)
    decreases |first|
  {
    if first == [] {
      assert first + second == second;
    } else {
      assert (first + second)[1..] == first[1..] + second;
      WalkConcat(first[1..], second);
    }
  }

  method CollectAggregateFiles(entries: seq<Entry>) returns (files: seq<Entry>)
    ensures files == Walk(entries)
    decreases entries
  {
    files := [];
    for i := 0 to |entries|
      invariant files == Walk(entries[..i])
    {
      assert entries[..i + 1] == entries[..i] + [entries[i]];
      WalkConcat(entries[..i], [entries[i]]);
      assert entries[i] in entries;
      match entries[i]
      case Dir(_, inner) =>
        var below := CollectAggregateFiles(inner);
        files := files + below;
      case File(_, _) =>
        if EndsWith(entries[i].name, ".aggregate.ts") && !EndsWith(entries[i].name, ".spec.ts") {
          files := files + [entries[i]];
        }
      case Other(_) =>
    }
    assert entries[..|entries|] == entries;
  }

  /** f lies below these entries, at some depth. */
  predicate Below(f: Entry, entries: seq<Entry>) {
    exists i :: 0 <= i < |entries| && (entries[i] == f || (entries[i].Dir? && Below(f, entries[i].entries)))
  }

  /** The walk finds exactly the aggregate files below the directory. */
  lemma {:induction false} WalkFinds(f: Entry, entries: seq<Entry>)
    ensures f in Walk(entries) <==> IsAggregateFile(f) && Below(f, entries)
    decreases entries
  {
    if entries != [] {
      var rest := entries[1..];
      WalkFinds(f, rest);
      if entries[0].Dir? {
        assert entries[0] in entries;
        WalkFinds(f, entries[0].entries);
      }
      if Below(f, rest) {
        var i :| 0 <= i < |rest| && (rest[i] == f || (rest[i].Dir? && Below(f, rest[i].entries)));
        assert entries[i + 1] == rest[i];
      }
      if Below(f, entries) {
        var i :| 0 <= i < |entries| && (entries[i] == f || (entries[i].Dir? && Below(f, entries[i].entries)));
        if i > 0 { assert rest[i - 1] == entries[i]; }
      }
    }
  }

  /** Aggregate files by the characters of their names: the test of the second suffix
      excludes nothing. */
  lemma AggregateFileIff(e: Entry)
    ensures IsAggregateFile(e) <==> e.File? && exists stem: string :: e.name == stem + ".aggregate.ts"
  {
    if IsAggregateFile(e) {
      var stem := e.name[..|e.name| - 13];
      assert e.name == stem + ".aggregate.ts";
    }
    if stem :| e.File? && e.name == stem + ".aggregate.ts" {
      assert e.name[|e.name| - 13..] == ".aggregate.ts";
      SpecSuffixExcludesNothing(e.name);
    }
  }

  /** A directory has at most one entry of a name; its content, or nothing. */
  function SubDir(entries: seq<Entry>, name: string): seq<Entry> {
    if entries == [] then []
    else (if entries[0].Dir? && entries[0].name == name then entries[0].entries else []) + SubDir(entries[1..], name)
  }

  function FilesOf(m: Entry): seq<Entry>
    requires m.Dir?
  {
    Walk(SubDir(SubDir(m.entries, "domain"), "aggregates"))
  }

  // ----- Registration

  /** Every (class, module) pair of these classes, files, contexts. */
  function ClassPairs(classes: seq<string>, moduleName: string): set<Mapping> {
    set c | c in classes :: Mapping(c, moduleName)
  }

  function FilePairs(files: seq<Entry>, moduleName: string): set<Mapping> {
    if files == [] then {}
    else FilePairs(files[..|files| - 1], moduleName) +
         (if files[|files| - 1].File? then ClassPairs(files[|files| - 1].classes, moduleName) else {})
  }

  function Pairs(contexts: seq<Entry>): set<Mapping> {
    if contexts == [] then {}
    else
      var last := contexts[|contexts| - 1];
      Pairs(contexts[..|contexts| - 1]) + (if last.Dir? then FilePairs(FilesOf(last), last.name) else {})
  }

  /** Some class name occurs under two modules. */
  predicate Ambiguous(pairs: set<Mapping>) {
    exists p, q :: p in pairs && q in pairs && p.className == q.className && p.moduleName != q.moduleName
  }

  lemma {:induction false} FilePairsMeaning(files: seq<Entry>, moduleName: string, p: Mapping)
    ensures p in FilePairs(files, moduleName) <==>
            p.moduleName == moduleName && exists f :: f in files && f.File? && p.className in f.classes
    decreases |files|
  {
    if files != [] {
      var before, last := files[..|files| - 1], files[|files| - 1];
      FilePairsMeaning(before, moduleName, p);
      assert files == before + [last];
    }
  }

  lemma {:induction false} SubDirBelow(f: Entry, entries: seq<Entry>, name: string)
    ensures Below(f, SubDir(entries, name)) <==>
            exists d :: d in entries && d.Dir? && d.name == name && Below(f, d.entries)
    decreases |entries|
  {
    if entries != [] {
      SubDirBelow(f, entries[1..], name);
      var head := if entries[0].Dir? && entries[0].name == name then entries[0].entries else [];
      BelowJoin(f, head, SubDir(entries[1..], name));
      assert entries == [entries[0]] + entries[1..];
      if d :| d in entries && d.Dir? && d.name == name && Below(f, d.entries) {
        assert d == entries[0] || d in entries[1..];
      }
    }
  }

  lemma BelowJoin(f: Entry, x: seq<Entry>, y: seq<Entry>)
    ensures Below(f, x + y) <==> Below(f, x) || Below(f, y)
  {
    if i :| 0 <= i < |x + y| && ((x + y)[i] == f || ((x + y)[i].Dir? && Below(f, (x + y)[i].entries))) {
      assert (x + y)[i] == if i < |x| then x[i] else y[i - |x|];
    }
    if i :| 0 <= i < |x| && (x[i] == f || (x[i].Dir? && Below(f, x[i].entries))) {
      assert (x + y)[i] == x[i];
    }
    if i :| 0 <= i < |y| && (y[i] == f || (y[i].Dir? && Below(f, y[i].entries))) {
      assert (x + y)[|x| + i] == y[i];
    }
  }

  /** f lies, at some depth, below a directory aggregates in a directory domain here. */
  ghost predicate InAggregatesOf(entries: seq<Entry>, f: Entry) {
    exists domain, aggregates ::
      && domain in entries && domain.Dir? && domain.name == "domain"
      && aggregates in domain.entries && aggregates.Dir? && aggregates.name == "aggregates"
      && Below(f, aggregates.entries)
  }

  /** The files of a module, by the names of files and directories. */
  lemma FilesOfIff(m: Entry, f: Entry)
    requires m.Dir?
    ensures f in FilesOf(m) <==>
            f.File? && (exists stem: string :: f.name == stem + ".aggregate.ts") && InAggregatesOf(m.entries, f)
  {
    var domains := SubDir(m.entries, "domain");
    WalkFinds(f, SubDir(domains, "aggregates"));
    AggregateFileIff(f);
    SubDirBelow(f, domains, "aggregates");
    if Below(f, SubDir(domains, "aggregates")) {
      var a :| a in domains && a.Dir? && a.name == "aggregates" && Below(f, a.entries);
      SubDirMeaning(m.entries, "domain", a);
      var k :| 0 <= k < |m.entries| && m.entries[k].Dir? && m.entries[k].name == "domain" && a in m.entries[k].entries;
      assert InAggregatesOf(m.entries, f);
    }
    if d, a :|
      && d in m.entries && d.Dir? && d.name == "domain"
      && a in d.entries && a.Dir? && a.name == "aggregates" && Below(f, a.entries) {
      var k :| 0 <= k < |m.entries| && m.entries[k] == d;
      SubDirMeaning(m.entries, "domain", a);
    }
  }

  /** The class is exported by an aggregate file in domain/aggregates of the module. */
  ghost predicate Exports(contexts: seq<Entry>, p: Mapping) {
    exists m, f ::
      && m in contexts && m.Dir? && m.name == p.moduleName
      && InAggregatesOf(m.entries, f)
      && f.File? && (exists stem: string :: f.name == stem + ".aggregate.ts") && p.className in f.classes
  }

  /** What the scan is about, in terms of names alone. */
  lemma PairsAreExports(contexts: seq<Entry>, p: Mapping)
    ensures p in Pairs(contexts) <==> Exports(contexts, p)
  {
    PairsMeaning(contexts, p);
    if m, f :| m in contexts && m.Dir? && m.name == p.moduleName && f in FilesOf(m) && f.File? && p.className in f.classes {
      FilesOfIff(m, f);
    }
    if m, f :|
      && m in contexts && m.Dir? && m.name == p.moduleName && InAggregatesOf(m.entries, f)
      && f.File? && (exists stem: string :: f.name == stem + ".aggregate.ts") && p.className in f.classes {
      FilesOfIff(m, f);
    }
  }

  /** The scanned pairs are the classes that aggregate files export, with the module
      whose domain/aggregates directory the file is below. */
  lemma {:induction false} PairsMeaning(contexts: seq<Entry>, p: Mapping)
    ensures p in Pairs(contexts) <==>
            exists m, f :: m in contexts && m.Dir? && m.name == p.moduleName && f in FilesOf(m) && f.File? &&
                           p.className in f.classes
    decreases |contexts|
  {
    if contexts != [] {
      var before, last := contexts[..|contexts| - 1], contexts[|contexts| - 1];
      PairsMeaning(before, p);
      assert contexts == before + [last];
      if last.Dir? { FilePairsMeaning(FilesOf(last), last.name, p); }
    }
  }

  /** The insertion-ordered Map: no class name twice. */
  predicate Keyed(table: seq<Mapping>) {
    forall i, j :: 0 <= i < j < |table| ==> table[i].className != table[j].className
  }

  function Elements(table: seq<Mapping>): set<Mapping> {
    set p | p in table
  }

  lemma OneEntry(table: seq<Mapping>, p: Mapping, q: Mapping)
    requires Keyed(table) && p in table && q in table && p.className == q.className
    ensures p == q
  {
  }

  method Get(table: seq<Mapping>, c: string) returns (found: Option<string>)
    requires Keyed(table)
    ensures found.Some? ==> Mapping(c, found.value) in table
    ensures found.None? ==> forall m :: Mapping(c, m) !in table
  {
    for i := 0 to |table|
      invariant forall k :: 0 <= k < i ==> table[k].className != c
    {
      if table[i].className == c {
        return Some(table[i].moduleName);
      }
    }
    return None;
  }

  /** Some class of the file is already registered under another module. */
  predicate Conflicts(table: seq<Mapping>, moduleName: string, classes: seq<string>) {
    exists p, c :: p in table && c in classes && p.className == c && p.moduleName != moduleName
  }

  /** Fails exactly on a conflict; otherwise adds the file's pairs. An empty module
      name would count as no entry, so names are taken to be non-empty, as those of
      directories are. */
  method RegisterAggregateFile(table: seq<Mapping>, moduleName: string, classes: seq<string>)
      returns (r: Result<seq<Mapping>, Ambiguity>)
    requires Keyed(table) && moduleName != "" && forall p :: p in Elements(table) ==> p.moduleName != ""
    ensures r.Err? <==> Conflicts(table, moduleName, classes)
    ensures r.Err? ==>
              && r.error.className in classes && Mapping(r.error.className, r.error.first) in table
              && r.error.first != r.error.second == moduleName
    ensures r.Ok? ==> Keyed(r.value) && Elements(r.value) == Elements(table) + ClassPairs(classes, moduleName)
  {
    var t := table;
    for k := 0 to |classes|
      invariant Keyed(t) && Elements(t) == Elements(table) + ClassPairs(classes[..k], moduleName)
      invariant !Conflicts(table, moduleName, classes[..k])
    {
      var c := classes[k];
      assert classes[..k + 1] == classes[..k] + [c];
      assert ClassPairs(classes[..k + 1], moduleName) == ClassPairs(classes[..k], moduleName) + {Mapping(c, moduleName)};
      var existing := Get(t, c);
      forall p | p in table && p.className == c
        ensures existing.Some? && p == Mapping(c, existing.value)
      {
        assert p in Elements(t) && p == Mapping(c, p.moduleName);
        if existing.Some? { OneEntry(t, p, Mapping(c, existing.value)); }
      }
      if existing.Some? {
        assert Mapping(c, existing.value) in Elements(t);
        if existing.value != "" && existing.value != moduleName {
          var p := Mapping(c, existing.value);
          assert p in table && classes[k] in classes && p.className == classes[k] && p.moduleName != moduleName;
          return Err(Ambiguity(c, existing.value, moduleName));
        }
        if Mapping(c, existing.value) in Elements(table) { assert existing.value != ""; }
      } else {
        assert Elements(t + [Mapping(c, moduleName)]) == Elements(t) + {Mapping(c, moduleName)};
        t := t + [Mapping(c, moduleName)];
      }
    }
    assert classes[..|classes|] == classes;
    return Ok(t);
  }

  // ----- Sorting

  /** The comparison of two strings by their characters. */
  predicate Less(a: string, b: string) {
    b != [] && (a == [] || a[0] < b[0] || (a[0] == b[0] && Less(a[1..], b[1..])))
  }

  /** At their first difference, at place k, a has the smaller character or has ended. */
  predicate DifferAt(a: string, b: string, k: nat) {
    && k <= |a| && k < |b| && a[..k] == b[..k]
    && (k == |a| || a[k] < b[k])
  }

  /** Dictionary order. */
  ghost predicate Before(a: string, b: string) {
    exists k :: DifferAt(a, b, k)
  }

  lemma {:induction false} LessIsBefore(a: string, b: string)
    ensures Less(a, b) <==> Before(a, b)
    decreases |a|
  {
    if a == [] || b == [] || a[0] != b[0] {
      assert Less(a, b) ==> DifferAt(a, b, 0);
      assert forall k: nat :: 0 < k <= |a| && k <= |b| ==> a[..k][0] == a[0] && b[..k][0] == b[0];
    } else {
      LessIsBefore(a[1..], b[1..]);
      assert a == [a[0]] + a[1..] && b == [b[0]] + b[1..];
      if k: nat :| DifferAt(a[1..], b[1..], k) {
        assert a[..k + 1] == [a[0]] + a[1..][..k] && b[..k + 1] == [b[0]] + b[1..][..k];
        assert DifferAt(a, b, k + 1);
      }
      if k: nat :| DifferAt(a, b, k) {
        assert a[1..][..k - 1] == a[..k][1..] && b[1..][..k - 1] == b[..k][1..];
        assert DifferAt(a[1..], b[1..], k - 1);
      }
    }
  }

  lemma {:induction false} LessTotal(a: string, b: string)
    ensures Less(a, b) || Less(b, a) || a == b
    ensures !(Less(a, b) && Less(b, a))
    decreases |a|
  {
    if a != [] && b != [] && a[0] == b[0] {
      LessTotal(a[1..], b[1..]);
      if a[1..] == b[1..] { assert a == [a[0]] + a[1..] && b == [b[0]] + b[1..]; }
    }
  }

  lemma {:induction false} LessTransitive(a: string, b: string, c: string)
    requires Less(a, b) && Less(b, c)
    ensures Less(a, c)
    decreases |a|
  {
    if a != [] && a[0] == b[0] && b[0] == c[0] {
      LessTransitive(a[1..], b[1..], c[1..]);
    }
  }

  /** Dictionary order is a strict total order. */
  lemma BeforeTotal(a: string, b: string)
    ensures Before(a, b) || Before(b, a) || a == b
    ensures !(Before(a, b) && Before(b, a))
  {
    LessTotal(a, b);
    LessIsBefore(a, b);
    LessIsBefore(b, a);
  }

  lemma BeforeTransitive(a: string, b: string, c: string)
    requires Before(a, b) && Before(b, c)
    ensures Before(a, c)
  {
    LessIsBefore(a, b);
    LessIsBefore(b, c);
    LessTransitive(a, b, c);
    LessIsBefore(a, c);
  }

  /** Strictly ascending by class name in dictionary order, and so without duplicates. */
  ghost predicate Ascending(list: seq<Mapping>) {
    forall i, j :: 0 <= i < j < |list| ==> Before(list[i].className, list[j].className)
  }

  /** The sort, as insertion into a sorted list. */
  function Insert(p: Mapping, list: seq<Mapping>): seq<Mapping> {
    if list == [] then [p]
    else if Less(p.className, list[0].className) then [p] + list
    else [list[0]] + Insert(p, list[1..])
  }

  function Sorted(list: seq<Mapping>): seq<Mapping> {
    if list == [] then [] else Insert(list[0], Sorted(list[1..]))
  }

  lemma {:induction false} InsertAscends(p: Mapping, list: seq<Mapping>)
    requires Ascending(list) && forall q :: q in list ==> q.className != p.className
    ensures Ascending(Insert(p, list))
    ensures forall q :: q in Insert(p, list) <==> q == p || q in list
    decreases |list|
  {
    if list != [] {
      assert list == [list[0]] + list[1..];
      LessIsBefore(p.className, list[0].className);
      if Less(p.className, list[0].className) {
        forall j | 0 < j < |list| ensures Before(p.className, list[j].className) {
          BeforeTransitive(p.className, list[0].className, list[j].className);
        }
      } else {
        InsertAscends(p, list[1..]);
        BeforeTotal(p.className, list[0].className);
        assert list[0] in list;
        var rest := Insert(p, list[1..]);
        forall j | 0 <= j < |rest| ensures Before(list[0].className, rest[j].className) {
          assert rest[j] in rest;
          if rest[j] != p {
            var k :| 0 <= k < |list[1..]| && list[1..][k] == rest[j];
            assert list[k + 1] == rest[j];
          }
        }
      }
    }
  }

  lemma {:induction false} SortedAscends(list: seq<Mapping>)
    requires Keyed(list)
    ensures Ascending(Sorted(list))
    ensures forall q :: q in Sorted(list) <==> q in list
    decreases |list|
  {
    if list != [] {
      SortedAscends(list[1..]);
      assert list == [list[0]] + list[1..];
      InsertAscends(list[0], Sorted(list[1..]));
    }
  }

  /** A strictly ascending list is determined by its elements. */
  lemma {:induction false} AscendingUnique(a: seq<Mapping>, b: seq<Mapping>)
    requires Ascending(a) && Ascending(b) && Elements(a) == Elements(b)
    ensures a == b
    decreases |a|
  {
    assert b != [] ==> b[0] in Elements(b);
    if a != [] {
      assert a[0] in Elements(a);
      var i :| 0 <= i < |b| && b[i] == a[0];
      assert b[0] in Elements(b);
      var j :| 0 <= j < |a| && a[j] == b[0];
      BeforeTotal(a[0].className, b[0].className);
      assert a[0] == b[0];
      forall p ensures p in Elements(a[1..]) <==> p in Elements(a) && p != a[0] { TailElements(a, p); }
      forall p ensures p in Elements(b[1..]) <==> p in Elements(b) && p != b[0] { TailElements(b, p); }
      AscendingUnique(a[1..], b[1..]);
      assert a == [a[0]] + a[1..] && b == [b[0]] + b[1..];
    }
  }

  lemma TailElements(a: seq<Mapping>, p: Mapping)
    requires Ascending(a) && a != []
    ensures p in Elements(a[1..]) <==> p in Elements(a) && p != a[0]
  {
    BeforeTotal(a[0].className, a[0].className);
    assert a == [a[0]] + a[1..];
    if p in a[1..] {
      var k :| 0 <= k < |a[1..]| && a[1..][k] == p;
      assert Before(a[0].className, a[k + 1].className);
    }
  }

  // ----- The generator

  predicate NamesGiven(contexts: seq<Entry>) {
    forall m :: m in contexts ==> m.name != ""
  }

  /** The error names a class and two modules that have it. */
  predicate Names(e: Ambiguity, pairs: set<Mapping>) {
    e.first != e.second && Mapping(e.className, e.first) in pairs && Mapping(e.className, e.second) in pairs
  }

  /** Some class name is exported in two modules. */
  ghost predicate InTwoModules(contexts: seq<Entry>) {
    exists p, q :: Exports(contexts, p) && Exports(contexts, q) && p.className == q.className && p.moduleName != q.moduleName
  }

  /** What the generator promises of a scan: it fails exactly if some class name occurs
      under two modules, naming them, and else lists every exported class with its
      module, and nothing else, in dictionary order. */
  ghost predicate IsOutput(contexts: seq<Entry>, r: Result<seq<Mapping>, Ambiguity>) {
    && (r.Err? <==> InTwoModules(contexts))
    && (r.Err? ==>
          && r.error.first != r.error.second
          && Exports(contexts, Mapping(r.error.className, r.error.first))
          && Exports(contexts, Mapping(r.error.className, r.error.second)))
    && (r.Ok? ==> Ascending(r.value) && forall p :: p in r.value <==> Exports(contexts, p))
  }

  lemma IsOutputIf(contexts: seq<Entry>, r: Result<seq<Mapping>, Ambiguity>)
    requires r.Err? ==> Names(r.error, Pairs(contexts))
    requires r.Ok? ==> Ascending(r.value) && Elements(r.value) == Pairs(contexts) && !Ambiguous(Pairs(contexts))
    ensures IsOutput(contexts, r)
  {
    forall p
      ensures p in Pairs(contexts) <==> Exports(contexts, p)
    {
      PairsAreExports(contexts, p);
    }
    if r.Ok? {
      forall p
        ensures p in r.value <==> Exports(contexts, p)
      {
        assert p in r.value <==> p in Elements(r.value);
      }
    }
  }

  /** The files of one module. A failure is an ambiguity among the pairs so far and
      the module's. */
  method RegisterModule(table: seq<Mapping>, m: Entry) returns (r: Result<seq<Mapping>, Ambiguity>)
    requires Keyed(table) && m.Dir? && m.name != "" && forall p :: p in Elements(table) ==> p.moduleName != ""
    ensures r.Err? ==> Names(r.error, Elements(table) + FilePairs(FilesOf(m), m.name))
    ensures r.Ok? ==> Keyed(r.value) && Elements(r.value) == Elements(table) + FilePairs(FilesOf(m), m.name)
  {
    var files := CollectAggregateFiles(SubDir(SubDir(m.entries, "domain"), "aggregates"));
    var t := table;
    for j := 0 to |files|
      invariant Keyed(t) && Elements(t) == Elements(table) + FilePairs(files[..j], m.name)
    {
      assert files[..j + 1][..j] == files[..j];
      FilePairsGrow(files, m.name, j + 1);
      assert files[j] in files;
      WalkFinds(files[j], SubDir(SubDir(m.entries, "domain"), "aggregates"));
      forall p | p in Elements(t) ensures p.moduleName != "" { FilePairsMeaning(files[..j], m.name, p); }
      var added := RegisterAggregateFile(t, m.name, files[j].classes);
      if added.Err? {
        var p, c :| p in t && c in files[j].classes && p.className == c && p.moduleName != m.name;
        assert p in Elements(t);
        assert Mapping(c, m.name) in ClassPairs(files[j].classes, m.name);
        assert ClassPairs(files[j].classes, m.name) <= FilePairs(files[..j + 1], m.name);
        var e := added.error;
        assert Mapping(e.className, e.first) in Elements(t);
        assert Mapping(e.className, e.second) in ClassPairs(files[j].classes, m.name);
        return Err(e);
      }
      t := added.value;
    }
    assert files[..|files|] == files;
    return Ok(t);
  }

  method CollectMappings(contexts: seq<Entry>) returns (r: Result<seq<Mapping>, Ambiguity>)
    requires NamesGiven(contexts)
    ensures IsOutput(contexts, r)
  {
    var table: seq<Mapping> := [];
    for i := 0 to |contexts|
      invariant Keyed(table) && Elements(table) == Pairs(contexts[..i])
    {
      assert contexts[..i + 1][..i] == contexts[..i] && contexts[i] in contexts;
      PairsGrow(contexts, i + 1);
      if contexts[i].Dir? {
        forall p | p in Elements(table) ensures p.moduleName != "" { PairsMeaning(contexts[..i], p); }
        var added := RegisterModule(table, contexts[i]);
        if added.Err? {
          IsOutputIf(contexts, added);
          return added;
        }
        table := added.value;
      }
    }
    assert contexts[..|contexts|] == contexts;
    SortedAscends(table);
    assert Elements(Sorted(table)) == Elements(table);
    forall p, q | p in Elements(table) && q in Elements(table) && p.className == q.className ensures p == q {
      OneEntry(table, p, q);
    }
    r := Ok(Sorted(table));
    IsOutputIf(contexts, r);
  }

  lemma {:induction false} PairsGrow(contexts: seq<Entry>, i: nat)
    requires i <= |contexts|
    ensures Pairs(contexts[..i]) <= Pairs(contexts)
    decreases |contexts|
  {
    if i == |contexts| {
      assert contexts[..i] == contexts;
    } else {
      PairsGrow(contexts[..|contexts| - 1], i);
      assert contexts[..|contexts| - 1][..i] == contexts[..i];
    }
  }

  lemma {:induction false} FilePairsGrow(files: seq<Entry>, moduleName: string, i: nat)
    requires i <= |files|
    ensures FilePairs(files[..i], moduleName) <= FilePairs(files, moduleName)
    decreases |files|
  {
    if i == |files| {
      assert files[..i] == files;
    } else {
      FilePairsGrow(files[..|files| - 1], moduleName, i);
      assert files[..|files| - 1][..i] == files[..i];
    }
  }

  // ----- Independence of the enumeration order

  /** The same entry, up to the order in which directories list theirs, at any depth. */
  predicate Same(e: Entry, f: Entry)
    decreases e, 0
  {
    match (e, f)
    case (Dir(n, x), Dir(m, y)) => n == m && SameListing(x, y)
    case (_, _) => e == f
  }

  predicate SameListing(x: seq<Entry>, y: seq<Entry>)
    decreases x, 2
  {
    && (forall i {:trigger Listed(x[i], y)} :: 0 <= i < |x| ==> Listed(x[i], y))
    && (forall j {:trigger Lists(x, y[j])} :: 0 <= j < |y| ==> Lists(x, y[j]))
  }

  predicate Listed(e: Entry, y: seq<Entry>)
    decreases e, 1
  {
    exists j :: 0 <= j < |y| && Same(e, y[j])
  }

  predicate Lists(x: seq<Entry>, f: Entry)
    decreases x, 1
  {
    exists i :: 0 <= i < |x| && Same(x[i], f)
  }

  lemma {:induction false} SameReflexive(e: Entry)
    ensures Same(e, e)
    decreases e
  {
    if e.Dir? {
      forall i | 0 <= i < |e.entries| ensures Listed(e.entries[i], e.entries) && Lists(e.entries, e.entries[i]) {
        assert e.entries[i] in e.entries;
        SameReflexive(e.entries[i]);
      }
    }
  }

  lemma {:induction false} SameSymmetric(e: Entry, f: Entry)
    requires Same(e, f)
    ensures Same(f, e)
    decreases e
  {
    if e.Dir? && f.Dir? { ListingSymmetric(e.entries, f.entries); }
  }

  lemma {:induction false} ListingSymmetric(x: seq<Entry>, y: seq<Entry>)
    requires SameListing(x, y)
    ensures SameListing(y, x)
    decreases x
  {
    forall i | 0 <= i < |x| ensures Lists(y, x[i]) {
      assert Listed(x[i], y);
      var j :| 0 <= j < |y| && Same(x[i], y[j]);
      SameSymmetric(x[i], y[j]);
    }
    forall j | 0 <= j < |y| ensures Listed(y[j], x) {
      assert Lists(x, y[j]);
      var i :| 0 <= i < |x| && Same(x[i], y[j]);
      SameSymmetric(x[i], y[j]);
    }
  }

  /** A permutation is the same listing. */
  lemma PermutationIsSame(x: seq<Entry>, y: seq<Entry>)
    requires multiset(x) == multiset(y)
    ensures SameListing(x, y)
  {
    forall i | 0 <= i < |x| ensures Listed(x[i], y) {
      SameReflexive(x[i]);
      assert x[i] in multiset(x);
      assert x[i] in y;
    }
    forall j | 0 <= j < |y| ensures Lists(x, y[j]) {
      SameReflexive(y[j]);
      assert y[j] in multiset(y);
      assert y[j] in x;
    }
  }

  lemma {:induction false} SubDirMeaning(entries: seq<Entry>, name: string, e: Entry)
    ensures e in SubDir(entries, name) <==>
            exists k :: 0 <= k < |entries| && entries[k].Dir? && entries[k].name == name && e in entries[k].entries
    decreases |entries|
  {
    if entries != [] {
      SubDirMeaning(entries[1..], name, e);
      if k :| 0 <= k < |entries| && entries[k].Dir? && entries[k].name == name && e in entries[k].entries {
        if k > 0 { assert entries[1..][k - 1] == entries[k]; }
      }
      if k :| 0 <= k < |entries[1..]| && entries[1..][k].Dir? && entries[1..][k].name == name && e in entries[1..][k].entries {
        assert entries[k + 1] == entries[1..][k];
      }
    }
  }

  lemma SubDirSame(x: seq<Entry>, y: seq<Entry>, name: string)
    requires SameListing(x, y)
    ensures SameListing(SubDir(x, name), SubDir(y, name))
  {
    var a, b := SubDir(x, name), SubDir(y, name);
    ListingSymmetric(x, y);
    forall i | 0 <= i < |a| ensures Listed(a[i], b) { SubDirListed(x, y, name, a[i]); }
    forall j | 0 <= j < |b| ensures Lists(a, b[j]) {
      SubDirListed(y, x, name, b[j]);
      var i :| 0 <= i < |a| && Same(b[j], a[i]);
      SameSymmetric(b[j], a[i]);
    }
  }

  lemma EntryListed(m: Entry, n: Entry, e: Entry) returns (other: Entry)
    requires m.Dir? && Same(m, n) && e in m.entries
    ensures n.Dir? && n.name == m.name && other in n.entries && Same(e, other)
  {
    var i :| 0 <= i < |m.entries| && m.entries[i] == e;
    assert Listed(m.entries[i], n.entries);
    var j :| 0 <= j < |n.entries| && Same(e, n.entries[j]);
    other := n.entries[j];
  }

  lemma SubDirListed(x: seq<Entry>, y: seq<Entry>, name: string, e: Entry)
    requires SameListing(x, y) && e in SubDir(x, name)
    ensures Listed(e, SubDir(y, name))
  {
    SubDirMeaning(x, name, e);
    var k :| 0 <= k < |x| && x[k].Dir? && x[k].name == name && e in x[k].entries;
    assert Listed(x[k], y);
    var j :| 0 <= j < |y| && Same(x[k], y[j]);
    var other := EntryListed(x[k], y[j], e);
    SubDirMeaning(y, name, other);
    var l :| 0 <= l < |SubDir(y, name)| && SubDir(y, name)[l] == other;
  }

  lemma {:induction false} SameBelow(f: Entry, x: seq<Entry>, y: seq<Entry>)
    requires SameListing(x, y) && f.File? && Below(f, x)
    ensures Below(f, y)
    decreases x
  {
    var i :| 0 <= i < |x| && (x[i] == f || (x[i].Dir? && Below(f, x[i].entries)));
    assert Listed(x[i], y);
    var j :| 0 <= j < |y| && Same(x[i], y[j]);
    if x[i] != f {
      assert x[i] in x;
      SameBelow(f, x[i].entries, y[j].entries);
    }
  }

  lemma SameFiles(m: Entry, n: Entry, f: Entry)
    requires m.Dir? && n.Dir? && Same(m, n) && f in FilesOf(m)
    ensures f in FilesOf(n)
  {
    SubDirSame(m.entries, n.entries, "domain");
    var a, b := SubDir(m.entries, "domain"), SubDir(n.entries, "domain");
    SubDirSame(a, b, "aggregates");
    WalkFinds(f, SubDir(a, "aggregates"));
    SameBelow(f, SubDir(a, "aggregates"), SubDir(b, "aggregates"));
    WalkFinds(f, SubDir(b, "aggregates"));
  }

  lemma SamePairs(x: seq<Entry>, y: seq<Entry>)
    requires SameListing(x, y)
    ensures Pairs(x) <= Pairs(y)
  {
    forall p | p in Pairs(x) ensures p in Pairs(y) {
      PairsMeaning(x, p);
      var m, f :| m in x && m.Dir? && m.name == p.moduleName && f in FilesOf(m) && f.File? && p.className in f.classes;
      var i :| 0 <= i < |x| && x[i] == m;
      assert Listed(x[i], y);
      var j :| 0 <= j < |y| && Same(x[i], y[j]);
      SameFiles(m, y[j], f);
      assert y[j] in y;
      PairsMeaning(y, p);
    }
  }

  lemma EqualPairs(x: seq<Entry>, y: seq<Entry>)
    requires SameListing(x, y)
    ensures Pairs(x) == Pairs(y)
  {
    SamePairs(x, y);
    ListingSymmetric(x, y);
    SamePairs(y, x);
  }

  lemma OutputDetermined(x: seq<Entry>, y: seq<Entry>, r: Result<seq<Mapping>, Ambiguity>, q: Result<seq<Mapping>, Ambiguity>)
    requires Pairs(x) == Pairs(y) && IsOutput(x, r) && IsOutput(y, q)
    ensures r.Err? <==> q.Err?
    ensures r.Ok? ==> r == q
  {
    forall p
      ensures Exports(x, p) <==> Exports(y, p)
    {
      PairsAreExports(x, p);
      PairsAreExports(y, p);
    }
    SameClash(x, y);
    if r.Ok? {
      SameElements(x, r.value, y, q.value);
      AscendingUnique(r.value, q.value);
    }
  }

  lemma SameClash(x: seq<Entry>, y: seq<Entry>)
    requires forall p :: Exports(x, p) <==> Exports(y, p)
    ensures InTwoModules(x) <==> InTwoModules(y)
  {
  }

  lemma SameElements(x: seq<Entry>, a: seq<Mapping>, y: seq<Entry>, b: seq<Mapping>)
    requires forall p :: Exports(x, p) <==> Exports(y, p)
    requires forall p :: p in a <==> Exports(x, p)
    requires forall p :: p in b <==> Exports(y, p)
    ensures Elements(a) == Elements(b)
  {
  }

  /** The generated map does not depend on the order in which any directory lists its
      entries: on two listings of one tree the generator fails on both, exactly when
      some class name occurs under two modules, or yields one and the same list. */
  lemma OrderDoesNotMatter(x: seq<Entry>, y: seq<Entry>, r: Result<seq<Mapping>, Ambiguity>, q: Result<seq<Mapping>, Ambiguity>)
    requires SameListing(x, y) && IsOutput(x, r) && IsOutput(y, q)
    ensures r.Err? <==> q.Err?
    ensures r.Ok? ==> r == q
  {
    EqualPairs(x, y);
    OutputDetermined(x, y, r, q);
  }

  /** A name with the aggregate suffix never has the test suffix: the second test of
      the file filter excludes nothing. */
  lemma SpecSuffixExcludesNothing(name: string)
    requires EndsWith(name, ".aggregate.ts")
    ensures !EndsWith(name, ".spec.ts")
  {
    var i := |name| - 8;
    assert name[i] == name[|name| - 13..][5] == 'e';
    assert |name[i..]| == 8 && name[i..][0] == name[i];
  }
}
