/** Bootstrap files for the prompt: session filters, a budget for each file and one for
    all of them, and a cache keyed by modification time and size. */
module PromptContext {
  import opened Sequences
  import opened Wrappers

  // ----- budgets

  datatype Budgets = Budgets(total: int, perFile: int, dynamic: bool)

  function IntOf(n: Option<int>): int {
    if n.Some? then n.value else 0
  }

  /** Configured caps of 0 or less are no caps. */
  function ResolveBudgets(total: int, perFile: int, window: Option<int>): (b: Budgets)
    ensures b.total >= 0 && b.perFile >= 0
    ensures b.dynamic <==> window.Some? && window.value > 0
    ensures !b.dynamic ==> b.total == Max(0, total) && b.perFile == Max(0, perFile)
    ensures b.dynamic ==> 0 < b.perFile <= b.total
    ensures b.dynamic && total > 0 ==> b.total <= total
    ensures b.dynamic && perFile > 0 ==> b.perFile <= perFile
    ensures b.dynamic ==>
              var share := Max(1500, (window.value as real * 0.48).Floor);
              b.total == if total > 0 then Min(share, total) else share
    ensures b.dynamic ==>
              var share := Max(600, (b.total as real * 0.35).Floor);
              b.perFile == Min(b.total, if perFile > 0 then Min(share, perFile) else share)
  {
    if IntOf(window) <= 0 then Budgets(Max(0, total), Max(0, perFile), false)
    else
      var chars := window.value * 4;
      var dynamicTotal := Max(1500, (chars as real * 0.12).Floor);
      var cappedTotal := if total > 0 then Min(dynamicTotal, total) else dynamicTotal;
      var dynamicFile := Max(600, (cappedTotal as real * 0.35).Floor);
      var cappedFile := if perFile > 0 then Min(dynamicFile, perFile) else dynamicFile;
      Budgets(Max(0, cappedTotal), Max(0, Min(cappedFile, cappedTotal)), true)
  }

  // ----- files on disk

  /** `text` is `None` when reading fails. */
  datatype File = File(mtime: int, size: int, text: Option<string>)

  type Disk = map<string, File>

  datatype CacheEntry = CacheEntry(mtime: int, size: int, text: string)

  /** How a file's text is obtained; `None` if it cannot be. */
  type Reader = string -> Option<string>

  function DirectRead(disk: Disk, path: string): Option<string> {
    if path in disk then disk[path].text else None
  }

  function DirectReader(disk: Disk): Reader {
    (path: string) => DirectRead(disk, path)
  }

  /** The cached text of a file that is unchanged by modification time and size. */
  function Fresh(cache: map<string, CacheEntry>, disk: Disk, path: string): Option<string> {
    if path in disk && path in cache && cache[path].mtime == disk[path].mtime && cache[path].size == disk[path].size
    then Some(cache[path].text)
    else None
  }

  /** What loading a file through the cache gives. */
  function LoadOf(cache: map<string, CacheEntry>, disk: Disk, path: string): Option<string> {
    if Fresh(cache, disk, path).Some? then Fresh(cache, disk, path) else DirectRead(disk, path)
  }

  function CachedReader(cache: map<string, CacheEntry>, disk: Disk): Reader {
    (path: string) => LoadOf(cache, disk, path)
  }

  /** Two versions of a file that agree in modification time and size have one text: every
      write changes one of them. */
  ghost predicate SameVersions(a: File, b: File) {
    a.mtime == b.mtime && a.size == b.size && a.text.Some? && b.text.Some? ==> a.text == b.text
  }

  /** Every write to a path, between the disks seen, changed its time or size. */
  ghost predicate Versioned(seen: set<Disk>) {
    forall a, b, path :: a in seen && b in seen && path in a && path in b ==> SameVersions(a[path], b[path])
  }

  // ----- what is put into the prompt

  /** What parsing a file gives: its text without control markers, and the tokens of its
      include and exclude markers. */
  datatype Parsed = Parsed(body: string, included: seq<string>, excluded: seq<string>)

  datatype Resolved = Resolved(filename: string, content: string, truncated: bool)

  predicate Occurs(token: string, s: string) {
    exists i :: 0 <= i <= |s| && token <= s[i..]
  }

  /** Keys and tokens are lower-cased already. */
  predicate Allowed(session: string, p: Parsed) {
    && (p.included != [] ==> exists t :: t in p.included && Occurs(t, session))
    && (forall t :: t in p.excluded ==> !Occurs(t, session))
  }

  function Cut(s: string, n: nat): string {
    if n < |s| then s[..n] else s
  }

  function CutToFile(body: string, perFile: nat): string {
    if perFile > 0 then Cut(body, perFile) else body
  }

  datatype Request = Request(session: string, total: nat, perFile: nat, parse: string -> Parsed)

  /** What one file contributes: nothing, nothing and no later file either, or a text. */
  datatype Offer = Skip | Stop | Text(content: string, truncated: bool)

  function OfferOf(text: string, request: Request, remaining: nat): Offer {
    var p := request.parse(text);
    if !Allowed(request.session, p) then Skip
    else if request.total > 0 && remaining == 0 then Stop
    else
      var own := CutToFile(p.body, request.perFile);
      var content := if request.total > 0 then Cut(own, remaining) else own;
      Text(content, content != p.body)
  }

  function Left(o: Offer, request: Request, remaining: nat): nat {
    if o.Text? && request.total > 0 && |o.content| <= remaining then remaining - |o.content| else remaining
  }

  function Injected(filename: string, o: Offer): seq<Resolved> {
    if o.Text? && o.content != "" then [Resolved(filename, o.content, o.truncated)] else []
  }

  /** The files from some point on, with what is left of the total budget. */
  function Resolve(files: seq<string>, read: Reader, request: Request, remaining: nat): seq<Resolved> {
    if files == [] then []
    else
      var text := read(files[0]);
      var o := if text.Some? then OfferOf(text.value, request, remaining) else Skip;
      if o.Stop? then []
      else Injected(files[0], o) + Resolve(files[1..], read, request, Left(o, request, remaining))
  }

  function TotalLength(resolved: seq<Resolved>): nat {
    if resolved == [] then 0 else |resolved[0].content| + TotalLength(resolved[1..])
  }

  /** A non-empty beginning of the file's text, whole unless marked as truncated, within
      the budget for one file. */
  ghost predicate IsExtract(r: Resolved, read: Reader, request: Request) {
    && read(r.filename).Some?
    && var body := request.parse(read(r.filename).value).body;
       && r.content != "" && r.content <= body
       && (r.truncated <==> r.content != body)
       && (request.perFile > 0 ==> |r.content| <= request.perFile)
       && Allowed(request.session, request.parse(read(r.filename).value))
  }

  ghost predicate AllExtracts(r: seq<Resolved>, read: Reader, request: Request) {
    forall i :: 0 <= i < |r| ==> IsExtract(r[i], read, request)
  }

  lemma OfferBounds(filename: string, read: Reader, request: Request, remaining: nat)
    requires read(filename).Some?
    ensures var o := OfferOf(read(filename).value, request, remaining);
            o.Text? ==>
              && (request.total > 0 ==> |o.content| <= remaining)
              && (o.content != "" ==> IsExtract(Resolved(filename, o.content, o.truncated), read, request))
              && (o.truncated ==> (request.perFile > 0 && |o.content| == request.perFile)
                                  || (request.total > 0 && |o.content| == remaining))
  {
  }

  lemma TotalFirst(r: Resolved, more: seq<Resolved>)
    ensures TotalLength([r] + more) == |r.content| + TotalLength(more)
  {
    assert ([r] + more)[1..] == more;
  }

  lemma ExtractsFirst(r: Resolved, more: seq<Resolved>, read: Reader, request: Request)
    requires IsExtract(r, read, request) && AllExtracts(more, read, request)
    ensures AllExtracts([r] + more, read, request)
  {
    hide IsExtract;
    assert forall i :: 0 < i < |[r] + more| ==> ([r] + more)[i] == more[i - 1];
  }

  lemma {:induction false} WithinBudgets(files: seq<string>, read: Reader, request: Request, remaining: nat)
    ensures var r := Resolve(files, read, request, remaining);
            && AllExtracts(r, read, request)
            && (request.total > 0 ==> TotalLength(r) <= remaining)
  {
    hide OfferOf, IsExtract, AllExtracts, TotalLength;
    if files == [] {
      NoExtracts(read, request);
    } else {
      var text := read(files[0]);
      var o := if text.Some? then OfferOf(text.value, request, remaining) else Skip;
      var left := Left(o, request, remaining);
      WithinBudgets(files[1..], read, request, left);
      var more := Resolve(files[1..], read, request, left);
      if o.Text? && o.content != "" {
        OfferBounds(files[0], read, request, remaining);
        var head := Resolved(files[0], o.content, o.truncated);
        TotalFirst(head, more);
        ExtractsFirst(head, more, read, request);
      } else {
        assert [] + more == more;
        NoExtracts(read, request);
      }
    }
  }

  lemma NoExtracts(read: Reader, request: Request)
    ensures AllExtracts([], read, request) && TotalLength([]) == 0
  {
  }

  /** Only a budget truncates: a file that is cut short fills its own budget or the rest
      of the total. */
  lemma TruncatedOnlyByBudget(files: seq<string>, read: Reader, request: Request)
    ensures var r := Resolve(files, read, request, request.total);
            && AllExtracts(r, read, request)
            && (request.total > 0 ==> TotalLength(r) <= request.total)
            && AllFill(r, request, request.total)
  {
    WithinBudgets(files, read, request, request.total);
    FullWhenCut(files, read, request, request.total);
  }

  /** A truncated file fills its own budget, or is the last one and fills the rest. */
  ghost predicate FillsBudget(r: seq<Resolved>, i: nat, request: Request, remaining: nat)
    requires i < |r|
  {
    r[i].truncated ==>
      || (request.perFile > 0 && |r[i].content| == request.perFile)
      || (request.total > 0 && i == |r| - 1 && TotalLength(r) == remaining)
  }

  ghost predicate AllFill(r: seq<Resolved>, request: Request, remaining: nat) {
    forall i :: 0 <= i < |r| ==> FillsBudget(r, i, request, remaining)
  }

  lemma FillFirst(head: Resolved, more: seq<Resolved>, request: Request, remaining: nat, left: nat)
    requires AllFill(more, request, left)
    requires request.total > 0 ==> left + |head.content| == remaining
    requires head.truncated ==> (request.perFile > 0 && |head.content| == request.perFile)
                                || (request.total > 0 && |head.content| == remaining && more == [])
    ensures AllFill([head] + more, request, remaining)
  {
    TotalFirst(head, more);
    forall i | 0 <= i < |[head] + more| ensures FillsBudget([head] + more, i, request, remaining) {
      if i > 0 {
        assert ([head] + more)[i] == more[i - 1];
        assert FillsBudget(more, i - 1, request, left);
      }
    }
  }

  lemma {:induction false} FullWhenCut(files: seq<string>, read: Reader, request: Request, remaining: nat)
    ensures var r := Resolve(files, read, request, remaining);
            AllFill(r, request, remaining)
  {
    hide OfferOf, IsExtract, AllFill, TotalLength;
    if files == [] {
      NothingFills(request, remaining);
    } else {
      var text := read(files[0]);
      var o := if text.Some? then OfferOf(text.value, request, remaining) else Skip;
      var left := Left(o, request, remaining);
      FullWhenCut(files[1..], read, request, left);
      var more := Resolve(files[1..], read, request, left);
      if o.Text? && o.content != "" {
        OfferBounds(files[0], read, request, remaining);
        if request.total > 0 && left == 0 {
          NothingLeft(files[1..], read, request);
        }
        FillFirst(Resolved(files[0], o.content, o.truncated), more, request, remaining, left);
      } else {
        assert [] + more == more;
        NothingFills(request, remaining);
      }
    }
  }

  lemma NothingFills(request: Request, remaining: nat)
    ensures AllFill([], request, remaining)
  {
  }

  lemma {:induction false} NothingLeft(files: seq<string>, read: Reader, request: Request)
    requires request.total > 0
    ensures Resolve(files, read, request, 0) == []
  {
    if files != [] {
      NothingLeft(files[1..], read, request);
    }
  }

  /** What a file adds that comes when this much of the total is left: nothing if it cannot be
      read, is not for the session, is empty, or nothing is left; else the longest beginning
      that both budgets allow. */
  function Contribution(filename: string, read: Reader, request: Request, left: nat): seq<Resolved> {
    if read(filename).None? then []
    else
      var p := request.parse(read(filename).value);
      if !Allowed(request.session, p) || p.body == "" || (request.total > 0 && left == 0) then []
      else
        var own := if request.perFile > 0 then Min(|p.body|, request.perFile) else |p.body|;
        var n := if request.total > 0 then Min(own, left) else own;
        [Resolved(filename, p.body[..n], n < |p.body|)]
  }

  lemma ResolveNone(read: Reader, request: Request, remaining: nat)
    ensures Resolve([], read, request, remaining) == [] && TotalLength([]) == 0
  {
  }

  /** The first of some files. */
  lemma FirstContributes(filename: string, read: Reader, request: Request, remaining: nat)
    ensures var text := read(filename);
            var o := if text.Some? then OfferOf(text.value, request, remaining) else Skip;
            && Contribution(filename, read, request, remaining) == (if o.Stop? then [] else Injected(filename, o))
            && (o.Stop? ==> request.total > 0 && remaining == 0)
            && (request.total > 0 ==>
                  Left(o, request, remaining) == remaining - TotalLength(Injected(filename, o)))
  {
    hide TotalLength, Allowed;
    ResolveNone(read, request, remaining);
    var text := read(filename);
    if text.Some? {
      CutTwice(request.parse(text.value).body, request, remaining);
    }
    var o := if text.Some? then OfferOf(text.value, request, remaining) else Skip;
    if o.Text? && o.content != "" {
      TotalFirst(Resolved(filename, o.content, o.truncated), []);
      assert [Resolved(filename, o.content, o.truncated)] + [] == Injected(filename, o);
    }
  }

  lemma CutTwice(body: string, request: Request, left: nat)
    ensures var own := CutToFile(body, request.perFile);
            var content := if request.total > 0 then Cut(own, left) else own;
            var n := if request.perFile > 0 then Min(|body|, request.perFile) else |body|;
            content == body[..if request.total > 0 then Min(n, left) else n]
    ensures forall n :: 0 <= n <= |body| ==> (body[..n] != body <==> n < |body|)
  {
    assert body[..|body|] == body;
  }

  lemma {:induction false} TotalConcat(a: seq<Resolved>, b: seq<Resolved>)
    ensures TotalLength(a + b) == TotalLength(a) + TotalLength(b)
  {
    if a == [] {
      assert a + b == b;
    } else {
      TotalConcat(a[1..], b);
      assert (a + b)[1..] == a[1..] + b && (a + b)[0] == a[0];
    }
  }

  /** One file more adds its contribution, with what the files before it have left. */
  lemma {:induction false} ResolveNext(files: seq<string>, filename: string, read: Reader, request: Request,
                                       remaining: nat)
    ensures var before := Resolve(files, read, request, remaining);
            && (request.total > 0 ==> TotalLength(before) <= remaining)
            && var left := if request.total > 0 then remaining - TotalLength(before) else remaining;
               Resolve(files + [filename], read, request, remaining) ==
               before + Contribution(filename, read, request, left)
  {
    hide OfferOf, TotalLength, Contribution, Injected, Resolve, Left, AllExtracts;
    WithinBudgets(files, read, request, remaining);
    if files == [] {
      assert files + [filename] == [filename];
      ResolveFirst([filename], read, request, remaining);
      var text := read(filename);
      var o := if text.Some? then OfferOf(text.value, request, remaining) else Skip;
      ResolveNone(read, request, remaining);
      ResolveNone(read, request, Left(o, request, remaining));
      FirstContributes(filename, read, request, remaining);
      assert [filename][1..] == [];
      assert Contribution(filename, read, request, remaining) + [] == Contribution(filename, read, request, remaining);
      assert [] + Contribution(filename, read, request, remaining) == Contribution(filename, read, request, remaining);
    } else {
      var text := read(files[0]);
      var o := if text.Some? then OfferOf(text.value, request, remaining) else Skip;
      ResolveFirst(files, read, request, remaining);
      ResolveFirst(files + [filename], read, request, remaining);
      FirstContributes(files[0], read, request, remaining);
      assert (files + [filename])[1..] == files[1..] + [filename] && (files + [filename])[0] == files[0];
      if o.Stop? {
        NothingContributes(filename, read, request);
        ResolveNone(read, request, remaining);
      } else {
        var left := Left(o, request, remaining);
        ResolveNext(files[1..], filename, read, request, left);
        TotalConcat(Injected(files[0], o), Resolve(files[1..], read, request, left));
        LeftWithoutTotal(o, request, remaining, filename, read, left);
        Regroup(Injected(files[0], o), Resolve(files[1..], read, request, left),
          Contribution(filename, read, request, if request.total > 0 then left - TotalLength(Resolve(files[1..], read,
            request, left)) else left));
      }
    }
  }

  lemma ResolveFirst(files: seq<string>, read: Reader, request: Request, remaining: nat)
    requires files != []
    ensures var text := read(files[0]);
            var o := if text.Some? then OfferOf(text.value, request, remaining) else Skip;
            Resolve(files, read, request, remaining) ==
            if o.Stop? then []
            else Injected(files[0], o) + Resolve(files[1..], read, request, Left(o, request, remaining))
  {
  }

  lemma NothingContributes(filename: string, read: Reader, request: Request)
    requires request.total > 0
    ensures Contribution(filename, read, request, 0) == []
  {
  }

  lemma LeftWithoutTotal(o: Offer, request: Request, remaining: nat, filename: string, read: Reader, left: nat)
    requires request.total == 0 ==> left == Left(o, request, remaining)
    ensures request.total == 0 ==>
              Contribution(filename, read, request, left) == Contribution(filename, read, request, remaining)
  {
  }

  lemma ResolveFrom(files: seq<string>, i: nat, read: Reader, request: Request, remaining: nat)
    requires i <= |files|
    ensures Resolve(files[i..], read, request, remaining) ==
            if i == |files| then []
            else
              var o := if read(files[i]).Some? then OfferOf(read(files[i]).value, request, remaining) else Skip;
              if o.Stop? then []
              else Injected(files[i], o) + Resolve(files[i + 1..], read, request, Left(o, request, remaining))
  {
    if i < |files| {
      assert files[i..][1..] == files[i + 1..] && files[i..][0] == files[i];
    }
  }

  /** Readers that agree on the files give the same result. */
  lemma {:induction false} SameReaders(files: seq<string>, a: Reader, b: Reader, request: Request, remaining: nat)
    requires forall i :: 0 <= i < |files| ==> a(files[i]) == b(files[i])
    ensures Resolve(files, a, request, remaining) == Resolve(files, b, request, remaining)
  {
    if files != [] {
      hide OfferOf, Injected;
      assert a(files[0]) == b(files[0]);
      var text := a(files[0]);
      var o := if text.Some? then OfferOf(text.value, request, remaining) else Skip;
      SameReaders(files[1..], a, b, request, Left(o, request, remaining));
    }
  }

  // ----- the resolver

  class PromptContextResolver {
    var cache: map<string, CacheEntry>
    ghost var seen: set<Disk>

    /** Every cached text was on some disk, with its modification time and size. */
    ghost predicate Valid()
      reads this
    {
      forall path :: path in cache ==> exists d :: d in seen && WasThere(d, path, cache[path])
    }

    constructor ()
      ensures Valid() && cache == map[] && seen == {}
    {
      cache, seen := map[], {};
    }

    method ClearCache()
      modifies this`cache
      ensures Valid() && cache == map[]
    {
      cache := map[];
    }

    /** If every write so far has changed modification time or size, loading through the
        cache gives what a direct read of the same disk gives, whenever that succeeds. */
    method LoadFileContent(path: string, disk: Disk) returns (text: Option<string>)
      requires Valid()
      modifies this
      ensures Valid() && seen == old(seen) + {disk}
      ensures text == LoadOf(old(cache), disk, path)
      ensures forall p :: LoadOf(cache, disk, p) == LoadOf(old(cache), disk, p)
      ensures cache == AfterLoad(old(cache), disk, path)
      ensures Versioned(seen) && DirectRead(disk, path).Some? ==> text == DirectRead(disk, path)
    {
      seen := seen + {disk};
      CacheIsExactFor(path, disk);
      LoadStays(cache, disk, path);
      hide LoadOf, WasThere, Versioned;
      if path !in disk {
        cache := cache - {path};
        return None;
      }
      var file := disk[path];
      if path in cache && cache[path].mtime == file.mtime && cache[path].size == file.size {
        return Some(cache[path].text);
      }
      if file.text.None? {
        cache := cache - {path};
        return None;
      }
      cache := cache[path := CacheEntry(file.mtime, file.size, file.text.value)];
      OnDisk(disk, path);
      return file.text;
    }

    /** `resolve`: the result is that of loading every file through the cache as it was, so
        it keeps both budgets, whatever the cache holds; on a readable disk, with versioned
        writes, it is that of reading every file directly. */
    method ResolveFiles(files: seq<string>, disk: Disk, session: string, total: int, perFile: int,
                        parse: string -> Parsed)
      returns (resolved: seq<Resolved>)
      requires Valid()
      modifies this
      ensures Valid() && old(seen) <= seen <= old(seen) + {disk}
      ensures var request := Request(session, Max(0, total), Max(0, perFile), parse);
              && resolved == Resolve(files, CachedReader(old(cache), disk), request, Max(0, total))
              && AllExtracts(resolved, CachedReader(old(cache), disk), request)
              && AllFill(resolved, request, Max(0, total))
              && (total > 0 ==> TotalLength(resolved) <= total)
              && (Versioned(old(seen) + {disk}) && Readable(disk) ==>
                    resolved == Resolve(files, DirectReader(disk), request, Max(0, total)))
    {
      hide OfferOf, Versioned, LoadOf, AllExtracts, AllFill, TotalLength, Resolve, Readable;
      var request := Request(session, Max(0, total), Max(0, perFile), parse);
      var remaining: nat := Max(0, total);
      ghost var read := CachedReader(cache, disk);
      TruncatedOnlyByBudget(files, read, request);
      CacheIsExact(files, disk, request);
      resolved := [];
      assert files[0..] == files;
      for i := 0 to |files|
        invariant Valid() && old(seen) <= seen <= old(seen) + {disk}
        invariant forall p :: LoadOf(cache, disk, p) == LoadOf(old(cache), disk, p)
        invariant resolved + Resolve(files[i..], read, request, remaining) ==
                Resolve(files, read, request, Max(0, total))
      {
        ResolveFrom(files, i, read, request, remaining);
        ghost var rest := Resolve(files[i + 1..], read, request, remaining);
        assert Injected(files[i], Skip) + rest == rest;
        if files[i] in disk {
          var text := LoadFileContent(files[i], disk);
          assert text == read(files[i]);
          if text.Some? {
            var o := OfferOf(text.value, request, remaining);
            if o.Stop? {
              break;
            }
            ghost var before := resolved;
            remaining := Left(o, request, remaining);
            resolved := resolved + Injected(files[i], o);
            Regroup(before, Injected(files[i], o), Resolve(files[i + 1..], read, request, remaining));
          }
        } else {
          NotThere(old(cache), disk, files[i]);
        }
      }
      ResolveFrom(files, |files|, read, request, remaining);
    }

    lemma CacheIsExactFor(path: string, disk: Disk)
      requires Valid()
      ensures Versioned(seen + {disk}) && DirectRead(disk, path).Some? ==>
              LoadOf(cache, disk, path) == DirectRead(disk, path)
    {
      if Versioned(seen + {disk}) && DirectRead(disk, path).Some? && Fresh(cache, disk, path).Some? {
        var d :| d in seen && WasThere(d, path, cache[path]);
        assert d in seen + {disk} && disk in seen + {disk};
        assert SameVersions(d[path], disk[path]);
      }
    }

    /** With versioned writes, every fresh entry of the cache holds the text on the disk. */
    lemma CacheIsExact(files: seq<string>, disk: Disk, request: Request)
      requires Valid()
      ensures Versioned(seen + {disk}) && Readable(disk) ==>
                Resolve(files, CachedReader(cache, disk), request, request.total) ==
                Resolve(files, DirectReader(disk), request, request.total)
    {
      hide Resolve;
      if Versioned(seen + {disk}) && Readable(disk) {
        forall path ensures LoadOf(cache, disk, path) == DirectRead(disk, path) {
          CacheIsExactFor(path, disk);
        }
        SameReaders(files, CachedReader(cache, disk), DirectReader(disk), request, request.total);
      }
    }
  }

  lemma OnDisk(disk: Disk, path: string)
    requires path in disk && disk[path].text.Some?
    ensures WasThere(disk, path, CacheEntry(disk[path].mtime, disk[path].size, disk[path].text.value))
  {
  }

  /** The cache as a load of `path` leaves it. */
  function AfterLoad(cache: map<string, CacheEntry>, disk: Disk, path: string): map<string, CacheEntry> {
    if Fresh(cache, disk, path).Some? then cache
    else if DirectRead(disk, path).Some?
    then cache[path := CacheEntry(disk[path].mtime, disk[path].size, disk[path].text.value)]
    else cache - {path}
  }

  /** Loading a file changes nothing for the next load from the same disk. */
  lemma LoadStays(cache: map<string, CacheEntry>, disk: Disk, path: string)
    ensures forall p :: LoadOf(AfterLoad(cache, disk, path), disk, p) == LoadOf(cache, disk, p)
    ensures LoadOf(cache, disk, path) ==
            if Fresh(cache, disk, path).Some? then Fresh(cache, disk, path) else DirectRead(disk, path)
  {
  }

  lemma NotThere(cache: map<string, CacheEntry>, disk: Disk, path: string)
    requires path !in disk
    ensures LoadOf(cache, disk, path) == None
  {
  }

  /** Every file that exists can be read. */
  ghost predicate Readable(disk: Disk) {
    forall path :: path in disk ==> disk[path].text.Some?
  }

  ghost predicate WasThere(disk: Disk, path: string, e: CacheEntry) {
    path in disk && disk[path] == File(e.mtime, e.size, Some(e.text))
  }

  /** Without that, a cached text outlives the file's: the new text is not seen. */
  lemma StaleWithoutVersions(path: string, before: string, after: string, mtime: int, size: int)
    requires before != after
    ensures var cache := map[path := CacheEntry(mtime, size, before)];
            var disk: Disk := map[path := File(mtime, size, Some(after))];
            Fresh(cache, disk, path).Some? && Fresh(cache, disk, path) != DirectRead(disk, path)
  {
  }
}
