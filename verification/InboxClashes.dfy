// Destinations never clash with each other, but what is kept beside them can:
// the metadata file of a reservation (its destination with a suffix) and the
// partial file of its transfer (likewise) may be the destination of another.
// Exactly which offered names make that possible.
module InboxClashes {
  import opened Wrappers
  import opened GoIntegers
  import opened Decimals
  import opened ChunkCrypto
  import opened Files
  import opened InboxReservations

  // Some reservation's companion file is some reservation's destination.
  ghost predicate Clash(s: InboxState, suffix: string) {
    exists a, b :: a in s.entries && b in s.entries && a.destinationPath + suffix == b.destinationPath
  }

  predicate OfferedFrom(visits: seq<Visit>, names: set<string>) {
    forall v :: v in visits ==> v.offer.fileName in names
  }

  // Two offered names (perhaps one) of which a numbered variant of one is a
  // numbered variant of the other with the suffix; variant 0 is the name itself.
  ghost predicate NamesCanClash(names: set<string>, suffix: string) {
    exists n, j, m, k :: Reaches(names, n, j, m, k, suffix)
  }

  predicate Reaches(names: set<string>, n: string, j: nat, m: string, k: nat, suffix: string) {
    && n in names && m in names && SafeBaseName(n).Ok? && SafeBaseName(m).Ok?
    && Leaf(n, j) == Leaf(m, k) + suffix
  }

  // ---- A clash comes from such names ----

  ghost predicate IsVariant(dir: string, names: set<string>, e: InboxEntry) {
    e.fileName in names && SafeBaseName(e.fileName).Ok? && exists k :: e.destinationPath == Candidate(dir, e.fileName, k)
  }

  lemma GrantedIsVariant(dir: string, s: InboxState, v: Visit, names: set<string>)
    requires v.offer.fileName in names && After(dir, s, v).1.Ok?
    ensures IsVariant(dir, names, After(dir, s, v).1.value)
  {
    hide Candidate, Slot;
  }

  lemma {:induction false} EntriesAreVariants(dir: string, visits: seq<Visit>, names: set<string>)
    requires OfferedFrom(visits, names)
    ensures forall e :: e in Visited(dir, visits).entries ==> IsVariant(dir, names, e)
    decreases |visits|
  {
    hide ReserveStep, IsVariant;
    if visits != [] {
      var v := visits[|visits| - 1];
      var s := Visited(dir, visits[..|visits| - 1]);
      assert v in visits;
      EntriesAreVariants(dir, visits[..|visits| - 1], names);
      GrantIsFreeAndInside(dir, s, v.disk, v.offer, v.text, v.faults);
      if After(dir, s, v).1.Ok? { GrantedIsVariant(dir, s, v, names); }
    }
  }

  lemma ClashComesFromNames(dir: string, visits: seq<Visit>, names: set<string>, suffix: string)
    requires OfferedFrom(visits, names) && Clash(Visited(dir, visits), suffix)
    ensures NamesCanClash(names, suffix)
  {
    hide Visited, Leaf;
    EntriesAreVariants(dir, visits, names);
    var a, b :| a in Visited(dir, visits).entries && b in Visited(dir, visits).entries && a.destinationPath + suffix == b.destinationPath;
    assert IsVariant(dir, names, a) && IsVariant(dir, names, b);
    var k :| a.destinationPath == Candidate(dir, a.fileName, k);
    var j :| b.destinationPath == Candidate(dir, b.fileName, j);
    DirApart(dir, Leaf(b.fileName, j), Leaf(a.fileName, k), suffix);
    assert Reaches(names, b.fileName, j, a.fileName, k, suffix);
  }

  lemma DirApart(dir: string, x: string, y: string, suffix: string)
    requires dir + x == dir + y + suffix
    ensures x == y + suffix
  {
    assert (dir + x)[|dir|..] == x;
    assert (dir + y + suffix)[|dir|..] == y + suffix;
  }

  // ---- Such names do clash ----

  lemma {:induction false} NumeralsGrow(i: nat, j: nat)
    requires i <= j
    ensures |Decimal(i)| <= |Decimal(j)|
  {
    if i >= 10 { NumeralsGrow(i / 10, j / 10); }
  }

  lemma VariantsGrow(dir: string, name: string, i: nat, j: nat)
    requires i <= j
    ensures |Candidate(dir, name, i)| <= |Candidate(dir, name, j)|
  {
    hide Decimal, Ext;
    NumeralsGrow(i, j);
  }

  // A disk on which exactly the variants below this one are taken.
  function TakenBelow(dir: string, name: string, n: nat): Disk {
    if n == 0 then map[] else TakenBelow(dir, name, n - 1)[Candidate(dir, name, n - 1) := []]
  }

  lemma {:induction false} TakenAreBelow(dir: string, name: string, n: nat, p: string)
    ensures p in TakenBelow(dir, name, n) <==> exists i :: 0 <= i < n && p == Candidate(dir, name, i)
  {
    hide Candidate;
    if n > 0 { TakenAreBelow(dir, name, n - 1, p); }
  }

  lemma ReservesVariant(dir: string, name: string, n: nat, reserved: set<string>)
    requires Candidate(dir, name, n) !in reserved
    ensures var d := TakenBelow(dir, name, n);
      Slot(dir, name, d.Keys, reserved) == n && Candidate(dir, name, n) + METADATA_SUFFIX !in d
  {
    hide Candidate, NextFree, TakenBelow;
    var d := TakenBelow(dir, name, n);
    forall i | 0 <= i < n
      ensures Candidate(dir, name, i) != Candidate(dir, name, n) + METADATA_SUFFIX && Candidate(dir, name, i) != Candidate(dir, name, n)
    {
      VariantsGrow(dir, name, i, n);
      if Candidate(dir, name, i) == Candidate(dir, name, n) { CandidatesDiffer(dir, name, i, n); }
    }
    TakenAreBelow(dir, name, n, Candidate(dir, name, n));
    TakenAreBelow(dir, name, n, Candidate(dir, name, n) + METADATA_SUFFIX);
    assert Free(d.Keys, reserved, Candidate(dir, name, n));
    SlotIsFirstFree(dir, name, d.Keys, reserved);
    TakenAreBelow(dir, name, n, Candidate(dir, name, Slot(dir, name, d.Keys, reserved)));
  }

  const FINE: ReserveFaults := ReserveFaults(false, false, None, false)

  function OfferOf(name: string): InboxOffer { InboxOffer("transfer", "agent", name, 0) }

  function VisitFor(dir: string, name: string, n: nat): Visit { Visit(TakenBelow(dir, name, n), OfferOf(name), [], FINE) }

  lemma VisitGrants(dir: string, s: InboxState, name: string, n: nat)
    requires SafeBaseName(name).Ok? && Candidate(dir, name, n) !in Reserved(s.entries)
    ensures var (t, r) := After(dir, s, VisitFor(dir, name, n));
      r.Ok? && t.entries == s.entries + [r.value] && r.value.destinationPath == Candidate(dir, name, n)
  {
    hide Candidate, Slot, TakenBelow;
    ReservesVariant(dir, name, n, Reserved(s.entries));
  }

  lemma NamesDoClash(dir: string, names: set<string>, n: string, j: nat, m: string, k: nat, suffix: string) returns (visits: seq<Visit>)
    requires Reaches(names, n, j, m, k, suffix) && suffix != ""
    ensures OfferedFrom(visits, names) && Clash(Visited(dir, visits), suffix)
  {
    hide ReserveStep, Leaf, After, Reserved;
    var first, second := VisitFor(dir, n, j), VisitFor(dir, m, k);
    visits := [first, second];
    NothingReserved();
    VisitGrants(dir, EMPTY_INBOX, n, j);
    var (s, r) := After(dir, EMPTY_INBOX, first);
    OneReserved(s.entries, r.value);
    assert dir + Leaf(n, j) == dir + Leaf(m, k) + suffix;
    VisitGrants(dir, s, m, k);
    var (t, q) := After(dir, s, second);
    assert [first, second][..1] == [first] && [first][..0] == [];
    assert Visited(dir, [first]) == s;
    assert Visited(dir, visits) == t;
    assert r.value in t.entries && q.value in t.entries;
  }

  lemma NothingReserved()
    ensures Reserved(EMPTY_INBOX.entries) == {}
  {
  }

  lemma OneReserved(entries: seq<InboxEntry>, e: InboxEntry)
    requires entries == [] + [e]
    ensures Reserved(entries) == {e.destinationPath}
  {
  }

  // Over any runs that offer these names, on any disks, a companion file can
  // take the place of a destination if and only if two of the names reach one
  // another with its suffix.
  lemma NamesClashExactly(dir: string, names: set<string>, suffix: string)
    requires suffix != ""
    ensures (exists visits :: OfferedFrom(visits, names) && Clash(Visited(dir, visits), suffix)) <==> NamesCanClash(names, suffix)
  {
    hide Visited, Reaches, Clash;
    if visits :| OfferedFrom(visits, names) && Clash(Visited(dir, visits), suffix) {
      ClashComesFromNames(dir, visits, names, suffix);
    }
    if n, j, m, k :| Reaches(names, n, j, m, k, suffix) {
      var visits := NamesDoClash(dir, names, n, j, m, k, suffix);
    }
  }

  // In any state: once a name with the metadata suffix is reserved as it
  // stands, offering the name without it, free, collides.
  lemma FreeNameCollides(dir: string, s: InboxState, d: Disk, o: InboxOffer, text: Bytes)
    requires CheckOffer(o).None? && Free(d.Keys, Reserved(s.entries), dir + o.fileName)
    requires dir + o.fileName + METADATA_SUFFIX in Reserved(s.entries)
    ensures var r := ReserveStep(dir, s, d, o, text, FINE).2;
      r.Ok? && r.value.metadataPath in Reserved(s.entries)
  {
    hide Leaf, SafeBaseName;
    FirstCandidate(dir, o.fileName, d.Keys, Reserved(s.entries));
  }

  // ---- The metadata suffix ----

  lemma {:induction false} OneDot(name: string)
    ensures var e := Ext(name); e == "" || (e[0] == '.' && forall i :: 0 < i < |e| ==> e[i] != '.')
  {
    if name != "" && name[|name| - 1] != '/' && name[|name| - 1] != '.' { OneDot(name[..|name| - 1]); }
  }

  predicate EndsInSuffix(name: string) {
    |name| >= |METADATA_SUFFIX| && name[|name| - |METADATA_SUFFIX|..] == METADATA_SUFFIX
  }

  // A numbered variant never ends in the metadata suffix.
  lemma NumberedHasNoSuffix(head: string, ext: string)
    requires ext == "" || (ext[0] == '.' && forall i :: 0 < i < |ext| ==> ext[i] != '.')
    ensures !EndsInSuffix(head + ")" + ext)
  {
    var l, s := head + ")" + ext, METADATA_SUFFIX;
    var tail := if |l| >= |s| then l[|l| - |s|..] else l;
    // a place, counted from the end, where the two differ
    var k := if |ext| < 5 then |ext| else if |ext| == 5 then 6 else 5;
    assert l[|head|] == ')' && (ext != "" ==> l[|head| + 1] == '.');
    assert |ext| > 5 ==> l[|l| - 5] == ext[|ext| - 5];
    assert ext == "" ==> l[|l| - 1] == ')';
    assert |l| >= |s| && 0 < k ==> tail[|s| - k] == l[|l| - k];
    assert s[8] == 't' && s[9] == '.' && s[10] == 'j' && s[11] == 's' && s[12] == 'o' && s[13] == 'n';
  }

  // So a metadata file can take a destination's place if and only if one of the
  // names is a variant of another, or of itself, with the metadata suffix; and
  // never if no offered name ends in it.
  lemma MetadataClashExactly(dir: string, names: set<string>)
    ensures (exists visits :: OfferedFrom(visits, names) && Clash(Visited(dir, visits), METADATA_SUFFIX))
            <==> exists n, m, k :: Reaches(names, n, 0, m, k, METADATA_SUFFIX)
    ensures (forall n :: n in names ==> !EndsInSuffix(n)) ==>
              forall visits :: OfferedFrom(visits, names) ==> !Clash(Visited(dir, visits), METADATA_SUFFIX)
  {
    hide Visited, Clash, OfferedFrom, Reaches;
    NamesClashExactly(dir, names, METADATA_SUFFIX);
    forall n, j, m, k | Reaches(names, n, j, m, k, METADATA_SUFFIX) ensures j == 0 && n in names && EndsInSuffix(n) {
      OnlyTheNameItself(names, n, j, m, k);
    }
  }

  lemma OnlyTheNameItself(names: set<string>, n: string, j: nat, m: string, k: nat)
    requires Reaches(names, n, j, m, k, METADATA_SUFFIX)
    ensures j == 0 && n in names && EndsInSuffix(n)
  {
    OneDot(n);
    var head := Base(n) + " (" + Decimal(j);
    NumberedHasNoSuffix(head, Ext(n));
    assert j > 0 ==> Leaf(n, j) == head + ")" + Ext(n);
    var y := Leaf(m, k);
    assert (y + METADATA_SUFFIX)[|y|..] == METADATA_SUFFIX;
  }
}
