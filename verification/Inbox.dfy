// The receive inbox (internal/agentd/inbox.go): every accepted offer gets a
// destination of its own.
module InboxReservations {
  import opened Wrappers
  import opened GoIntegers
  import opened Decimals
  import opened ChunkCrypto
  import opened Files

  const METADATA_SUFFIX: string := ".postamat.json"

  datatype InboxError =
    | TransferIDMissing | FromAgentMissing | FileNameMissing | FileSizeBelowZero
    | UnsafeFileName | InboxRootUnsafe | MetadataFailed

  datatype InboxOffer = InboxOffer(transferID: string, fromAgentID: string, fileName: string, fileSizeBytes: int64)

  datatype InboxEntry = InboxEntry(transferID: string, fromAgentID: string, fileName: string, fileSizeBytes: int64,
                                   destinationPath: string, metadataPath: string, sequence: nat)

  datatype InboxState = InboxState(entries: seq<InboxEntry>, sequence: nat)

  const EMPTY_INBOX: InboxState := InboxState([], 0)

  // What goes wrong while a reservation is recorded, if anything.
  datatype ReserveFaults = ReserveFaults(rootUnsafe: bool, openFails: bool, torn: Option<nat>, closeFails: bool)

  // ---- Decimal formatting, digit by digit from the end of a fixed buffer ----

  lemma Int64Digits(n: nat)
    requires n < TWO_TO_63
    ensures |Decimal(n)| <= 19
  {
    assert Pow10(5) == 100000;
    assert Pow10(10) == 100000 * Pow10(5);
    assert Pow10(15) == 100000 * Pow10(10);
    assert Pow10(19) == 10000 * Pow10(15);
    DecimalLength(n, 19);
  }

  // strconvItoa: the exact numeral of every non-negative int, within its
  // twenty-character buffer; nothing at all for a negative one.
  method Itoa(n: int64) returns (s: string)
    ensures s == if n < 0 then "" else Decimal(n)
  {
    if n == 0 { return "0"; }
    var buf := new char[20];
    var idx, rest := buf.Length, n;
    if n > 0 { Int64Digits(n); }
    while rest > 0
      invariant 0 <= idx <= buf.Length
      invariant n < 0 ==> rest == n && idx == buf.Length
      invariant n > 0 ==> rest >= 0
      invariant rest > 0 ==> |Decimal(rest)| <= idx && Decimal(rest) + buf[idx..] == Decimal(n)
      invariant n > 0 && rest == 0 ==> buf[idx..] == Decimal(n)
    {
      ghost var tail := buf[idx..];
      idx := idx - 1;
      buf[idx] := ('0' as int + rest % 10) as char;
      assert buf[idx..] == [Digit(rest % 10)] + tail;
      assert rest >= 10 ==> Decimal(rest) + tail == Decimal(rest / 10) + ([Digit(rest % 10)] + tail);
      rest := rest / 10;
    }
    return buf[idx..];
  }

  // ---- Candidate names ----

  // filepath.Ext: from the last dot of the last path element on.
  function Ext(name: string): (e: string)
    ensures |e| <= |name| && name[|name| - |e|..] == e
  {
    if name == "" || name[|name| - 1] == '/' then ""
    else if name[|name| - 1] == '.' then "."
    else
      var e := Ext(name[..|name| - 1]);
      if e == "" then "" else e + [name[|name| - 1]]
  }

  function Base(name: string): string { name[..|name| - |Ext(name)|] }

  function Leaf(name: string, n: nat): string {
    if n == 0 then name else Base(name) + " (" + Decimal(n) + ")" + Ext(name)
  }

  // A name splits before its last dot, if it has one: the number goes in between.
  predicate LastDot(name: string, ext: string) {
    if '.' in name then ext != "" && ext[0] == '.' && '.' !in ext[1..] else ext == ""
  }

  lemma BaseThenExt(name: string)
    ensures Base(name) + Ext(name) == name
  {
    hide Ext;
  }

  lemma ExtOfLonger(head: string, last: char)
    requires last != '/'
    ensures Ext(head + [last]) == if last == '.' then "." else if Ext(head) == "" then "" else Ext(head) + [last]
  {
    var name := head + [last];
    assert name[|name| - 1] == last && name[..|name| - 1] == head;
  }

  lemma {:induction false} NameSplitsAtLastDot(name: string)
    requires '/' !in name
    ensures Base(name) + Ext(name) == name && LastDot(name, Ext(name))
    decreases |name|
  {
    hide LastDot, Base, Ext;
    BaseThenExt(name);
    if name == "" {
      LastDotKept("", 'a', "");
    } else {
      var head, last := name[..|name| - 1], name[|name| - 1];
      assert name == head + [last];
      assert last in name && forall c :: c in head ==> c in name;
      NameSplitsAtLastDot(head);
      ExtOfLonger(head, last);
      LastDotKept(head, last, Ext(head));
    }
  }

  lemma LastDotKept(head: string, last: char, ext: string)
    ensures LastDot("", "")
    ensures LastDot(head + ['.'], ".")
    ensures LastDot(head, ext) && last != '.' ==> LastDot(head + [last], if ext == "" then "" else ext + [last])
  {
    if ext != "" { assert (ext + [last])[1..] == ext[1..] + [last]; }
    assert '.' in head + ['.'];
  }

  // The candidates for a name without dots, and for one with an extension.
  lemma CandidatesRead(dir: string, base: string, ext: string, n: nat)
    requires '/' !in base + ext && (ext == "" ==> '.' !in base) && (ext != "" ==> ext[0] == '.' && '.' !in ext[1..])
    ensures Candidate(dir, base + ext, 0) == dir + base + ext
    ensures n > 0 ==> Candidate(dir, base + ext, n) == dir + base + " (" + Decimal(n) + ")" + ext
  {
    hide Decimal, Ext;
    var name := base + ext;
    NameSplitsAtLastDot(name);
    SplitsOnce(Base(name), Ext(name), base, ext);
    assert dir + (base + " (" + Decimal(n) + ")" + ext) == dir + base + " (" + Decimal(n) + ")" + ext;
    assert dir + (base + ext) == dir + base + ext;
  }

  predicate DotFirst(ext: string) { ext == "" || (ext[0] == '.' && '.' !in ext[1..]) }

  lemma SameCharacters(a: string, x: string, b: string, y: string)
    requires a + x == b + y && |a| < |b|
    ensures x != "" && x[0] == b[|a|]
    ensures y != "" ==> |b| - |a| < |x| && x[1..][|b| - |a| - 1] == y[0]
  {
    var s := a + x;
    assert s[|a|] == x[0] && (b + y)[|a|] == b[|a|];
    if y != "" { assert s[|b|] == x[|b| - |a|] && (b + y)[|b|] == y[0]; }
  }

  // The extension cannot be longer one way than the other.
  lemma NoLonger(a: string, x: string, b: string, y: string)
    requires a + x == b + y && DotFirst(x) && DotFirst(y) && (y == "" ==> '.' !in b)
    ensures |x| <= |y|
  {
    assert |a| + |x| == |a + x| == |b| + |y|;
    if |a| < |b| { SameCharacters(a, x, b, y); }
  }

  lemma SplitsOnce(a: string, x: string, b: string, y: string)
    requires a + x == b + y && DotFirst(x) && DotFirst(y)
    requires x == "" ==> '.' !in a
    requires y == "" ==> '.' !in b
    ensures a == b && x == y
  {
    NoLonger(a, x, b, y);
    NoLonger(b, y, a, x);
    assert a == (a + x)[..|a|] && b == (b + y)[..|b|];
    assert x == (a + x)[|a|..] && y == (b + y)[|b|..];
  }

  // The candidates in the order they are tried. dir is the cleaned inbox root
  // with its separator.
  function Candidate(dir: string, name: string, n: nat): string {
    dir + Leaf(name, n)
  }

  lemma NumberedName(base: string, ext: string, d: string)
    ensures var c := base + " (" + d + ")" + ext;
      |c| == |base| + |d| + |ext| + 3 && c[|base| + 2..|c| - |ext| - 1] == d
  {
  }

  lemma CandidatesDiffer(dir: string, name: string, m: nat, n: nat)
    requires Candidate(dir, name, m) == Candidate(dir, name, n)
    ensures m == n
  {
    var base, ext := Base(name), Ext(name);
    NumberedName(base, ext, Decimal(m));
    NumberedName(base, ext, Decimal(n));
    var a, b := Candidate(dir, name, m), Candidate(dir, name, n);
    assert a[|dir|..] == b[|dir|..];
    if m > 0 && n > 0 {
      assert a[|dir|..] == base + " (" + Decimal(m) + ")" + ext;
      assert b[|dir|..] == base + " (" + Decimal(n) + ")" + ext;
      DecimalInjective(m, n);
    }
  }

  predicate Free(paths: set<string>, reserved: set<string>, c: string) {
    c !in paths && c + METADATA_SUFFIX !in paths && c !in reserved
  }

  // The search from candidate n on. A path, a metadata path or a reservation
  // that blocks one candidate can block no other, so it is struck off; this is
  // what bounds the search.
  function NextFree(dir: string, name: string, n: nat, paths: set<string>, metas: set<string>, reserved: set<string>): (k: nat)
    ensures n <= k <= n + |paths| + |metas| + |reserved|
    decreases |paths| + |metas| + |reserved|
  {
    var c := Candidate(dir, name, n);
    if c in paths then NextFree(dir, name, n + 1, paths - {c}, metas, reserved)
    else if c + METADATA_SUFFIX in metas then NextFree(dir, name, n + 1, paths, metas - {c + METADATA_SUFFIX}, reserved)
    else if c in reserved then NextFree(dir, name, n + 1, paths, metas, reserved - {c})
    else n
  }

  function Slot(dir: string, name: string, paths: set<string>, reserved: set<string>): nat {
    NextFree(dir, name, 0, paths, paths, reserved)
  }

  // What is left to search says the same of every candidate still to come.
  ghost predicate SameFromHere(dir: string, name: string, n: nat, paths: set<string>, reserved: set<string>,
                               p: set<string>, m: set<string>, r: set<string>) {
    forall j :: j >= n ==>
      var c := Candidate(dir, name, j);
      && (c in p <==> c in paths) && (c + METADATA_SUFFIX in m <==> c + METADATA_SUFFIX in paths)
      && (c in r <==> c in reserved)
  }

  // Striking off what blocked candidate n keeps that.
  lemma Struck(dir: string, name: string, n: nat, paths: set<string>, reserved: set<string>,
               p: set<string>, m: set<string>, r: set<string>)
    requires SameFromHere(dir, name, n, paths, reserved, p, m, r)
    ensures var c := Candidate(dir, name, n);
      SameFromHere(dir, name, n + 1, paths, reserved, p - {c}, m, r)
      && SameFromHere(dir, name, n + 1, paths, reserved, p, m - {c + METADATA_SUFFIX}, r)
      && SameFromHere(dir, name, n + 1, paths, reserved, p, m, r - {c})
  {
    hide Candidate;
    var c := Candidate(dir, name, n);
    forall j | j > n ensures Candidate(dir, name, j) != c && Candidate(dir, name, j) + METADATA_SUFFIX != c + METADATA_SUFFIX {
      if Candidate(dir, name, j) == c { CandidatesDiffer(dir, name, n, j); }
      if Candidate(dir, name, j) + METADATA_SUFFIX == c + METADATA_SUFFIX { SameHead(Candidate(dir, name, j), c, METADATA_SUFFIX); }
    }
  }

  lemma SameHead(a: string, b: string, t: string)
    requires a + t == b + t
    ensures a == b
  {
    assert |a| == |b|;
    assert (a + t)[..|a|] == a && (b + t)[..|b|] == b;
  }

  lemma SameHere(dir: string, name: string, n: nat, paths: set<string>, reserved: set<string>,
                 p: set<string>, m: set<string>, r: set<string>)
    requires SameFromHere(dir, name, n, paths, reserved, p, m, r)
    ensures var c := Candidate(dir, name, n);
      (c in p <==> c in paths) && (c + METADATA_SUFFIX in m <==> c + METADATA_SUFFIX in paths) && (c in r <==> c in reserved)
  {
    hide Candidate;
  }

  lemma {:induction false} SearchFindsFirst(dir: string, name: string, n: nat, paths: set<string>, reserved: set<string>,
                                            p: set<string>, m: set<string>, r: set<string>)
    requires SameFromHere(dir, name, n, paths, reserved, p, m, r)
    ensures var k := NextFree(dir, name, n, p, m, r);
      && Free(paths, reserved, Candidate(dir, name, k))
      && forall j :: n <= j < k ==> !Free(paths, reserved, Candidate(dir, name, j))
    decreases |p| + |m| + |r|
  {
    hide Candidate, SameFromHere;
    var c := Candidate(dir, name, n);
    Struck(dir, name, n, paths, reserved, p, m, r);
    SameHere(dir, name, n, paths, reserved, p, m, r);
    if c in p {
      SearchFindsFirst(dir, name, n + 1, paths, reserved, p - {c}, m, r);
    } else if c + METADATA_SUFFIX in m {
      SearchFindsFirst(dir, name, n + 1, paths, reserved, p, m - {c + METADATA_SUFFIX}, r);
    } else if c in r {
      SearchFindsFirst(dir, name, n + 1, paths, reserved, p, m, r - {c});
    }
  }

  // Against any paths and reservations, the first free candidate exists and is
  // found within twice the paths plus the reservations plus one tries.
  lemma SlotIsFirstFree(dir: string, name: string, paths: set<string>, reserved: set<string>)
    ensures var k := Slot(dir, name, paths, reserved);
      && k + 1 <= 2 * |paths| + |reserved| + 1
      && Free(paths, reserved, Candidate(dir, name, k))
      && forall j :: 0 <= j < k ==> !Free(paths, reserved, Candidate(dir, name, j))
  {
    hide Candidate, Free;
    assert SameFromHere(dir, name, 0, paths, reserved, paths, paths, reserved);
    SearchFindsFirst(dir, name, 0, paths, reserved, paths, paths, reserved);
  }

  // ---- Reserving ----

  // safeBaseName.
  function SafeBaseName(name: string): Result<string, InboxError> {
    if '/' in name || '\\' in name || name == "." || name == ".." || name == "" then Err(UnsafeFileName) else Ok(name)
  }

  function Reserved(entries: seq<InboxEntry>): set<string> { set e | e in entries :: e.destinationPath }

  function CheckOffer(o: InboxOffer): Option<InboxError> {
    if o.transferID == "" then Some(TransferIDMissing)
    else if o.fromAgentID == "" then Some(FromAgentMissing)
    else if o.fileName == "" then Some(FileNameMissing)
    else if o.fileSizeBytes < 0 then Some(FileSizeBelowZero)
    else if SafeBaseName(o.fileName).Err? then Some(SafeBaseName(o.fileName).error)
    else None
  }

  function EntryFor(o: InboxOffer, destination: string, sequence: nat): InboxEntry {
    InboxEntry(o.transferID, o.fromAgentID, o.fileName, o.fileSizeBytes, destination, destination + METADATA_SUFFIX, sequence)
  }

  // Reserve. text is the encoded metadata; a torn write leaves some of it.
  function ReserveStep(dir: string, s: InboxState, d: Disk, o: InboxOffer, text: Bytes, f: ReserveFaults)
    : (InboxState, Disk, Result<InboxEntry, InboxError>)
  {
    if CheckOffer(o).Some? then (s, d, Err(CheckOffer(o).value))
    else if f.rootUnsafe then (s, d, Err(InboxRootUnsafe))
    else
      var destination := Candidate(dir, o.fileName, Slot(dir, o.fileName, d.Keys, Reserved(s.entries)));
      var entry := EntryFor(o, destination, s.sequence + 1);
      var counted := s.(sequence := s.sequence + 1);
      if f.openFails || entry.metadataPath in d then (counted, d, Err(MetadataFailed))
      else if f.torn.Some? then
        var n := if f.torn.value < |text| then f.torn.value else |text|;
        (counted, d[entry.metadataPath := text[..n]], Err(MetadataFailed))
      else if f.closeFails then (counted, d[entry.metadataPath := text], Err(MetadataFailed))
      else (counted.(entries := s.entries + [entry]), d[entry.metadataPath := text], Ok(entry))
  }

  // An offer is recorded exactly if it is well formed with a safe name and
  // nothing fails; else the first thing wrong is the error. The metadata file is
  // never in the way: the search for a name has passed it by.
  lemma ReservesExactly(dir: string, s: InboxState, d: Disk, o: InboxOffer, text: Bytes, f: ReserveFaults)
    ensures var (t, d', r) := ReserveStep(dir, s, d, o, text, f);
      var name := o.fileName;
      var unsafe := '/' in name || '\\' in name || name == "." || name == "..";
      && (r.Ok? <==>
            && o.transferID != "" && o.fromAgentID != "" && name != "" && !unsafe && o.fileSizeBytes >= 0
            && !f.rootUnsafe && !f.openFails && f.torn.None? && !f.closeFails)
      && (r.Err? ==>
            r.error == if o.transferID == "" then TransferIDMissing
                       else if o.fromAgentID == "" then FromAgentMissing
                       else if name == "" then FileNameMissing
                       else if o.fileSizeBytes < 0 then FileSizeBelowZero
                       else if unsafe then UnsafeFileName
                       else if f.rootUnsafe then InboxRootUnsafe
                       else MetadataFailed)
      && (r.Ok? ==>
            var k := Slot(dir, name, d.Keys, Reserved(s.entries));
            && r.value.destinationPath == Candidate(dir, name, k)
            && r.value.metadataPath == Candidate(dir, name, k) + ".postamat.json"
            && r.value.transferID == o.transferID && r.value.fromAgentID == o.fromAgentID
            && r.value.fileName == name && r.value.fileSizeBytes == o.fileSizeBytes)
      // a refusal counts up once a name was found, and leaves on the disk what the
      // write had got to
      && (r.Err? && r.error != MetadataFailed ==> t == s && d' == d)
      && (r.Err? && r.error == MetadataFailed ==>
            var meta := Candidate(dir, name, Slot(dir, name, d.Keys, Reserved(s.entries))) + ".postamat.json";
            && t == InboxState(s.entries, s.sequence + 1)
            && d' == if f.openFails then d
                     else d[meta := if f.torn.Some? && f.torn.value < |text| then text[..f.torn.value] else text])
  {
    hide Candidate, NextFree;
    SlotIsFirstFree(dir, o.fileName, d.Keys, Reserved(s.entries));
    assert text[..|text|] == text;
  }

  // What a reservation grants: a destination directly inside the inbox,
  // whatever name was offered, free on disk and among the reservations; the
  // entry is the newest, its metadata file is the only change on disk.
  lemma GrantIsFreeAndInside(dir: string, s: InboxState, d: Disk, o: InboxOffer, text: Bytes, f: ReserveFaults)
    ensures var (t, d', r) := ReserveStep(dir, s, d, o, text, f);
      if r.Err? then t.entries == s.entries && s.sequence <= t.sequence && forall p :: p in d ==> p in d' && d'[p] == d[p]
      else
        var e := r.value;
        && t.entries == s.entries + [e] && e.sequence == t.sequence == s.sequence + 1
        && e == EntryFor(o, e.destinationPath, t.sequence)
        && e.destinationPath !in d && e.destinationPath !in d'
        && (forall x :: x in s.entries ==> x.destinationPath != e.destinationPath)
        && e.metadataPath !in d && d' == d[e.metadataPath := text]
        && |dir| < |e.destinationPath| && e.destinationPath[..|dir|] == dir
        && SafeBaseName(e.destinationPath[|dir|..]).Ok?
  {
    hide Candidate, NextFree;
    var (t, d', r) := ReserveStep(dir, s, d, o, text, f);
    if r.Ok? {
      var k := Slot(dir, o.fileName, d.Keys, Reserved(s.entries));
      SlotIsFirstFree(dir, o.fileName, d.Keys, Reserved(s.entries));
      CandidateIsALeaf(dir, o.fileName, k);
      assert r.value.destinationPath != r.value.metadataPath by { assert METADATA_SUFFIX[0] == '.'; }
      forall x | x in s.entries ensures x.destinationPath != r.value.destinationPath {
        assert x.destinationPath in Reserved(s.entries);
      }
    }
  }

  lemma NumberedIsSafe(base: string, d: string, ext: string)
    requires AllDigits(d) && forall c :: c in base || c in ext ==> c != '/' && c != '\\'
    ensures SafeBaseName(base + " (" + d + ")" + ext).Ok?
  {
    var leaf := base + " (" + d + ")" + ext;
    assert leaf[|base| + 1] == '(';
    assert forall c :: c in d ==> IsDigit(c);
    forall c | c in leaf ensures c != '/' && c != '\\' {
      var i :| 0 <= i < |leaf| && leaf[i] == c;
      if i < |base| { assert c in base; }
      else if i == |base| || i == |base| + 1 || i == |base| + 2 + |d| {}
      else if i < |base| + 2 + |d| { assert c in d; }
      else { assert c in ext; }
    }
  }

  lemma CandidateIsALeaf(dir: string, name: string, k: nat)
    requires SafeBaseName(name).Ok?
    ensures var c := Candidate(dir, name, k);
      |dir| < |c| && c[..|dir|] == dir && SafeBaseName(c[|dir|..]).Ok?
  {
    assert Candidate(dir, name, k)[|dir|..] == Leaf(name, k);
    if k > 0 { NumberedIsSafe(Base(name), Decimal(k), Ext(name)); }
  }

  lemma {:induction false} ReservedIsSmall(entries: seq<InboxEntry>)
    ensures |Reserved(entries)| <= |entries|
  {
    if entries != [] {
      var n := |entries| - 1;
      ReservedIsSmall(entries[..n]);
      assert entries == entries[..n] + [entries[n]];
      assert Reserved(entries) == Reserved(entries[..n]) + {entries[n].destinationPath};
    }
  }

  lemma FirstCandidate(dir: string, name: string, paths: set<string>, reserved: set<string>)
    ensures Candidate(dir, name, 0) == dir + name
    ensures SameFromHere(dir, name, 0, paths, reserved, paths, paths, reserved)
    ensures Slot(dir, name, paths, reserved) == NextFree(dir, name, 0, paths, paths, reserved)
  {
    hide Ext;
  }

  // The test of the loop, and that the search stops where it succeeds.
  lemma IsFree(dir: string, name: string, n: nat, paths: set<string>, reserved: set<string>,
               p: set<string>, m: set<string>, r: set<string>)
    requires SameFromHere(dir, name, n, paths, reserved, p, m, r)
    ensures var c := Candidate(dir, name, n);
      && (Free(paths, reserved, c) <==> c !in paths && c + METADATA_SUFFIX !in paths && c !in reserved)
      && (Free(paths, reserved, c) ==> NextFree(dir, name, n, p, m, r) == n)
  {
    hide Candidate, SameFromHere;
    SameHere(dir, name, n, paths, reserved, p, m, r);
  }

  lemma NumberedCandidate(dir: string, name: string, n: nat)
    requires n > 0
    ensures Candidate(dir, name, n) == dir + (name[..|name| - |Ext(name)|] + " (" + Decimal(n) + ")" + Ext(name))
  {
    hide Ext, Decimal;
  }

  class Inbox {
    const root: string
    var entries: seq<InboxEntry>
    var sequence: nat

    ghost function State(): InboxState
      reads this
    {
      InboxState(entries, sequence)
    }

    constructor (root: string)
      ensures State() == EMPTY_INBOX && this.root == root
    {
      this.root := root;
      entries, sequence := [], 0;
    }

    method DestinationReserved(path: string) returns (taken: bool)
      ensures taken <==> path in Reserved(entries)
    {
      var i := 0;
      while i < |entries|
        invariant 0 <= i <= |entries|
        invariant forall j :: 0 <= j < i ==> entries[j].destinationPath != path
      {
        if entries[i].destinationPath == path {
          assert entries[i] in entries;
          return true;
        }
        i := i + 1;
      }
      return false;
    }

    // uniqueDestination: the numbered loop, with no bound of its own. It needs
    // only that there are fewer files and reservations than an int can count.
    method UniqueDestination(fs: FileStore, fileName: string) returns (candidate: string)
      requires 2 * |fs.files.Keys| + |entries| < TWO_TO_63
      ensures candidate == Candidate(root, fileName, Slot(root, fileName, fs.files.Keys, Reserved(entries)))
    {
      hide Ext, SameFromHere, Candidate, Reserved, NextFree, Slot, Free;
      ReservedIsSmall(entries);
      ghost var paths, reserved := fs.files.Keys, Reserved(entries);
      candidate := root + fileName;
      FirstCandidate(root, fileName, paths, reserved);
      var taken := DestinationReserved(candidate);
      IsFree(root, fileName, 0, paths, reserved, paths, paths, reserved);
      if candidate !in fs.files && candidate + METADATA_SUFFIX !in fs.files && !taken { return; }
      ghost var p, m, r := StrikeOff(root, fileName, 0, paths, reserved, paths, paths, reserved);
      var ext := Ext(fileName);
      var base := fileName[..|fileName| - |ext|];
      var n := 1;
      while true
        invariant n >= 1 && n + |p| + |m| + |r| <= 2 * |paths| + |reserved|
        invariant SameFromHere(root, fileName, n, paths, reserved, p, m, r)
        invariant NextFree(root, fileName, n, p, m, r) == Slot(root, fileName, paths, reserved)
        decreases |p| + |m| + |r|
      {
        var number := Itoa(n);
        candidate := root + (base + " (" + number + ")" + ext);
        NumberedCandidate(root, fileName, n);
        taken := DestinationReserved(candidate);
        IsFree(root, fileName, n, paths, reserved, p, m, r);
        if candidate !in fs.files && candidate + METADATA_SUFFIX !in fs.files && !taken { return; }
        p, m, r := StrikeOff(root, fileName, n, paths, reserved, p, m, r);
        n := n + 1;
      }
    }

    method Reserve(fs: FileStore, o: InboxOffer, text: Bytes, f: ReserveFaults) returns (r: Result<InboxEntry, InboxError>)
      requires 2 * |fs.files.Keys| + |entries| < TWO_TO_63
      modifies this, fs
      ensures (State(), fs.files, r) == ReserveStep(root, old(State()), old(fs.files), o, text, f)
    {
      hide Candidate, Slot, NextFree;
      if o.transferID == "" { return Err(TransferIDMissing); }
      if o.fromAgentID == "" { return Err(FromAgentMissing); }
      if o.fileName == "" { return Err(FileNameMissing); }
      if o.fileSizeBytes < 0 { return Err(FileSizeBelowZero); }
      var name := SafeBaseName(o.fileName);
      if name.Err? { return Err(name.error); }
      if f.rootUnsafe { return Err(InboxRootUnsafe); }
      var destination := UniqueDestination(fs, name.value);
      sequence := sequence + 1;
      var entry := EntryFor(o, destination, sequence);
      if f.openFails { return Err(MetadataFailed); }
      var created := fs.CreateExclusive(entry.metadataPath);
      if !created { return Err(MetadataFailed); }
      if f.torn.Some? {
        var part := text[..if f.torn.value < |text| then f.torn.value else |text|];
        fs.Append(entry.metadataPath, part);
        assert [] + part == part;
        assert fs.files == old(fs.files)[entry.metadataPath := part];
        assert State() == InboxState(old(entries), old(sequence) + 1);
        return Err(MetadataFailed);
      }
      fs.Append(entry.metadataPath, text);
      assert [] + text == text;
      assert fs.files == old(fs.files)[entry.metadataPath := text];
      if f.closeFails { return Err(MetadataFailed); }
      entries := entries + [entry];
      assert State() == InboxState(old(entries) + [entry], old(sequence) + 1);
      return Ok(entry);
    }
  }

  // One blocked candidate of the search, struck off.
  lemma StrikeOff(dir: string, name: string, n: nat, paths: set<string>, reserved: set<string>,
                  p: set<string>, m: set<string>, r: set<string>)
    returns (p': set<string>, m': set<string>, r': set<string>)
    requires SameFromHere(dir, name, n, paths, reserved, p, m, r)
    requires !Free(paths, reserved, Candidate(dir, name, n))
    ensures SameFromHere(dir, name, n + 1, paths, reserved, p', m', r')
    ensures NextFree(dir, name, n + 1, p', m', r') == NextFree(dir, name, n, p, m, r)
    ensures |p'| + |m'| + |r'| + 1 == |p| + |m| + |r|
  {
    hide Candidate, SameFromHere;
    var c := Candidate(dir, name, n);
    Struck(dir, name, n, paths, reserved, p, m, r);
    SameHere(dir, name, n, paths, reserved, p, m, r);
    p', m', r' := p, m, r;
    if c in p { p' := p - {c}; }
    else if c + METADATA_SUFFIX in m { m' := m - {c + METADATA_SUFFIX}; }
    else { r' := r - {c}; }
  }

  // ---- Runs ----

  // One call of Reserve. Between calls files come and go: the disk of each is
  // its own.
  datatype Visit = Visit(disk: Disk, offer: InboxOffer, text: Bytes, faults: ReserveFaults)

  function After(dir: string, s: InboxState, v: Visit): (InboxState, Result<InboxEntry, InboxError>) {
    var (t, _, r) := ReserveStep(dir, s, v.disk, v.offer, v.text, v.faults); (t, r)
  }

  function Visited(dir: string, visits: seq<Visit>): InboxState {
    if visits == [] then EMPTY_INBOX else After(dir, Visited(dir, visits[..|visits| - 1]), visits[|visits| - 1]).0
  }

  // What the successful calls returned, oldest first.
  function Granted(dir: string, visits: seq<Visit>): seq<InboxEntry> {
    if visits == [] then []
    else
      var r := After(dir, Visited(dir, visits[..|visits| - 1]), visits[|visits| - 1]).1;
      Granted(dir, visits[..|visits| - 1]) + (if r.Ok? then [r.value] else [])
  }

  ghost predicate Tidy(s: InboxState) {
    && (forall i :: 0 <= i < |s.entries| ==> s.entries[i].sequence <= s.sequence)
    && (forall i, j :: 0 <= i < j < |s.entries| ==>
          s.entries[i].sequence < s.entries[j].sequence && s.entries[i].destinationPath != s.entries[j].destinationPath)
  }

  lemma GrantKeepsTidy(s: InboxState, t: InboxState, e: InboxEntry)
    requires Tidy(s) && t.entries == s.entries + [e] && e.sequence == t.sequence == s.sequence + 1
    requires forall x :: x in s.entries ==> x.destinationPath != e.destinationPath
    ensures Tidy(t)
  {
  }

  // Over any run of reservations, and whatever else happens on the disk, the
  // list holds exactly what was granted, in the order it was granted, and no
  // two reservations share a destination.
  lemma {:induction false} ReservationsAreDistinct(dir: string, visits: seq<Visit>)
    ensures Tidy(Visited(dir, visits))
    ensures Visited(dir, visits).entries == Granted(dir, visits)
    decreases |visits|
  {
    hide ReserveStep, Tidy;
    if visits == [] {
      assert Tidy(EMPTY_INBOX) by { EmptyIsTidy(); }
    } else {
      var v := visits[|visits| - 1];
      var s := Visited(dir, visits[..|visits| - 1]);
      ReservationsAreDistinct(dir, visits[..|visits| - 1]);
      GrantIsFreeAndInside(dir, s, v.disk, v.offer, v.text, v.faults);
      var (t, r) := After(dir, s, v);
      if r.Ok? { GrantKeepsTidy(s, t, r.value); } else { RefusalKeepsTidy(s, t); }
    }
  }

  lemma EmptyIsTidy()
    ensures Tidy(EMPTY_INBOX)
  {
  }

  lemma RefusalKeepsTidy(s: InboxState, t: InboxState)
    requires Tidy(s) && t.entries == s.entries && s.sequence <= t.sequence
    ensures Tidy(t)
  {
  }
}
