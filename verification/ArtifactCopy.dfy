/**
 The artifact helper's copy between a staging directory and a volume, and the byte totals of
 the container plan that bound it.

 What the file system does to one entry of the listing is given by the entry: its metadata,
 and what reading it brings, which need not agree with the metadata.
 */
module ArtifactCopy {
  import opened Outcome
  import opened Streams

  function CheckedAdd(a: nat, b: nat): Option<nat> {
    if a + b > U64_MAX then None else Some(a + b)
  }

  function SaturatingAdd(a: nat, b: nat): nat {
    Min(a + b, U64_MAX)
  }

  // ---------- The plan's totals ----------

  const MAX_ARTIFACTS: nat := 32
  const MAX_WORKSPACE_BYTES: nat := 10 * 1024 * 1024 * 1024
  const VOLUME_OVERHEAD: nat := 1024 * 1024

  function CheckedTotal(sizes: seq<Option<nat>>, n: nat): Option<nat>
    requires n <= |sizes|
  {
    if n == 0 then Some(0)
    else
      var total := CheckedTotal(sizes, n - 1);
      if total.None? || sizes[n - 1].None? then None else CheckedAdd(total.value, sizes[n - 1].value)
  }

  // validate_workspace_binding, for the inputs or for the outputs.
  predicate WithinLimits(sizes: seq<Option<nat>>) {
    && |sizes| <= MAX_ARTIFACTS
    && CheckedTotal(sizes, |sizes|).Some? && CheckedTotal(sizes, |sizes|).value <= MAX_WORKSPACE_BYTES
  }

  // The plan's total: what is missing counts nothing, and too much saturates.
  function SaturatingTotal(sizes: seq<Option<nat>>, n: nat): nat
    requires n <= |sizes|
  {
    if n == 0 then 0
    else if sizes[n - 1].None? then SaturatingTotal(sizes, n - 1)
    else SaturatingAdd(SaturatingTotal(sizes, n - 1), sizes[n - 1].value)
  }

  function ExactTotal(sizes: seq<Option<nat>>, n: nat): nat
    requires n <= |sizes|
  {
    if n == 0 then 0
    else ExactTotal(sizes, n - 1) + if sizes[n - 1].Some? then sizes[n - 1].value else 0
  }

  lemma {:induction false} CheckedIsExact(sizes: seq<Option<nat>>, n: nat)
    requires n <= |sizes|
    ensures CheckedTotal(sizes, n).Some? ==>
              && CheckedTotal(sizes, n).value == ExactTotal(sizes, n) <= U64_MAX
              && forall i | 0 <= i < n :: sizes[i].Some?
    ensures CheckedTotal(sizes, n).None? ==>
              ExactTotal(sizes, n) > U64_MAX || exists i | 0 <= i < n :: sizes[i].None?
  {
    if n > 0 {
      CheckedIsExact(sizes, n - 1);
    }
  }

  lemma {:induction false} SaturatingIsExactOrFull(sizes: seq<Option<nat>>, n: nat)
    requires n <= |sizes|
    ensures SaturatingTotal(sizes, n) == Min(ExactTotal(sizes, n), U64_MAX)
  {
    if n > 0 {
      SaturatingIsExactOrFull(sizes, n - 1);
    }
  }

  function VolumeCapacity(content: nat): (r: nat)
    ensures content <= 10_737_418_240 ==> r == content + 1_048_576
    ensures r >= 1_048_576
  {
    Max(SaturatingAdd(content, VOLUME_OVERHEAD), VOLUME_OVERHEAD)
  }

  // A plan is accepted exactly when few enough artifacts declare their sizes and those add up to
  // no more than the limit; its total is then their exact sum.
  lemma {:induction false} PlanTotals(sizes: seq<Option<nat>>)
    ensures WithinLimits(sizes) <==>
              && |sizes| <= 32 && (forall i | 0 <= i < |sizes| :: sizes[i].Some?)
              && ExactTotal(sizes, |sizes|) <= 10_737_418_240
    ensures WithinLimits(sizes) ==> SaturatingTotal(sizes, |sizes|) == ExactTotal(sizes, |sizes|)
  {
    CheckedIsExact(sizes, |sizes|);
    SaturatingIsExactOrFull(sizes, |sizes|);
  }

  // ---------- One file ----------

  datatype Stat = StatFailed | NotRegular | Regular(len: nat)

  // `room` is how many bytes the destination takes before a write fails, if one does.
  datatype Entry = Entry(
    name: string, stat: Stat, opens: bool, input: seq<Reading>, room: Option<nat>,
    synced: bool, moded: bool, removes: bool)

  predicate Takes(e: Entry, bytes: nat) {
    e.room.None? || bytes <= e.room.value
  }

  predicate Copies(e: Entry, expected: nat) {
    && e.opens && e.synced && e.moded && (e.room.None? || expected <= e.room.value)
    && Content(e.input).Some? && |Content(e.input).value| == expected
  }

  const PLACEHOLDER := ".burd-placeholder"

  // The entries to copy, each as often as it is listed.
  function Listed(listing: seq<Entry>): (r: seq<Entry>)
    ensures forall e :: multiset(r)[e] == if e.name == ".burd-placeholder" then 0 else multiset(listing)[e]
  {
    if listing == [] then []
    else
      var last := listing[|listing| - 1];
      assert listing == listing[..|listing| - 1] + [last];
      Listed(listing[..|listing| - 1]) + if last.name == PLACEHOLDER then [] else [last]
  }

  function Length(e: Entry): nat {
    if e.stat.Regular? then e.stat.len else 0
  }

  function Total(entries: seq<Entry>, n: nat): nat
    requires n <= |entries|
  {
    if n == 0 then 0 else Total(entries, n - 1) + Length(entries[n - 1])
  }

  // What a directory holds, by name.
  type Files = map<string, string>

  // What is to be at a name: the whole file, unless it cannot be copied.
  datatype Item = Item(name: string, content: Option<string>)

  function ItemOf(e: Entry): (r: Item)
    ensures r.name == e.name && (r.content.Some? <==> e.stat.Regular? && Copies(e, e.stat.len))
    ensures r.content.Some? ==> r.content == Content(e.input) && |r.content.value| == e.stat.len
  {
    Item(e.name, if e.stat.Regular? && Copies(e, e.stat.len) then Content(e.input) else None)
  }

  function Items(entries: seq<Entry>): (r: seq<Item>)
    ensures |r| == |entries| && forall i | 0 <= i < |r| :: r[i] == ItemOf(entries[i])
  {
    seq(|entries|, i requires 0 <= i < |entries| => ItemOf(entries[i]))
  }

  // The first items can all be copied into a directory, where none of their names is taken.
  predicate AllFit(files: Files, items: seq<Item>, n: nat)
    requires n <= |items|
  {
    && (forall i | 0 <= i < n :: items[i].content.Some? && items[i].name !in files)
    && (forall i, j | 0 <= i < j < n :: items[i].name != items[j].name)
  }

  function Names(items: seq<Item>, n: nat): set<string>
    requires n <= |items|
  {
    if n == 0 then {} else Names(items, n - 1) + {items[n - 1].name}
  }

  lemma {:induction false} NamesOf(items: seq<Item>, n: nat, name: string)
    requires n <= |items|
    ensures name in Names(items, n) <==> exists i | 0 <= i < n :: items[i].name == name
  {
    if n > 0 {
      NamesOf(items, n - 1, name);
    }
  }

  lemma {:induction false} NamesGrow(items: seq<Item>, m: nat, n: nat)
    requires m <= n <= |items|
    ensures Names(items, m) <= Names(items, n)
  {
    if m < n {
      NamesGrow(items, m, n - 1);
    }
  }

  predicate Kept(before: Files, after: Files) {
    forall name | name in before :: name in after && after[name] == before[name]
  }

  // A directory afterwards holds what it held, the first items in full, and nothing else.
  predicate Holds(before: Files, after: Files, items: seq<Item>, n: nat)
    requires n <= |items|
  {
    && Kept(before, after) && after.Keys == before.Keys + Names(items, n)
    && forall i | 0 <= i < n :: items[i].name in after && items[i].content == Some(after[items[i].name])
  }

  // What a copy that failed may leave: everything that was there, and listed names besides.
  predicate Spared(before: Files, after: Files, items: seq<Item>) {
    Kept(before, after) && after.Keys <= before.Keys + Names(items, |items|)
  }

  lemma {:induction false} NextCopied(before: Files, files: Files, after: Files, items: seq<Item>, n: nat)
    requires n < |items| && Holds(before, files, items, n) && AllFit(before, items, n)
    requires items[n].content.Some? && items[n].name !in files
    requires after == files[items[n].name := items[n].content.value]
    ensures Holds(before, after, items, n + 1) && AllFit(before, items, n + 1)
  {
    assert forall i | 0 <= i < n :: items[i].name in files && items[i].name != items[n].name;
  }

  // An item that could not be copied now shows that not all could have been.
  lemma {:induction false} NextRefused(before: Files, files: Files, items: seq<Item>, n: nat)
    requires n < |items| && Holds(before, files, items, n)
    requires items[n].content.None? || items[n].name in files
    ensures !AllFit(before, items, |items|)
  {
    NamesOf(items, n, items[n].name);
    if items[n].content.Some? && items[n].name !in before {
      var i :| 0 <= i < n && items[i].name == items[n].name;
    }
  }

  // A failed copy leaves the directory as it was, or one new name in it.
  predicate Remains(files: Files, after: Files, name: string) {
    after == files || (name !in files && name in after && after == files[name := after[name]])
  }

  lemma {:induction false} HoldsSpares(before: Files, files: Files, after: Files, items: seq<Item>, n: nat)
    requires n < |items| && Holds(before, files, items, n) && Remains(files, after, items[n].name)
    ensures Spared(before, after, items)
  {
    NamesGrow(items, n + 1, |items|);
  }

  lemma {:induction false} NotAllCopied(before: Files, files: Files, items: seq<Item>,
                                        entries: seq<Entry>, n: nat, limit: nat)
    requires |items| == |entries| && n < |entries| && Holds(before, files, items, n)
    requires items[n].name in files || items[n].content.None? || Total(entries, n) + Length(entries[n]) > limit
    ensures Total(entries, |entries|) > limit || !AllFit(before, items, |items|)
  {
    if Total(entries, n) + Length(entries[n]) > limit {
      TotalGrows(entries, n + 1, |entries|);
    } else {
      NextRefused(before, files, items, n);
    }
  }

  lemma {:induction false} TotalGrows(entries: seq<Entry>, m: nat, n: nat)
    requires m <= n <= |entries|
    ensures Total(entries, m) <= Total(entries, n)
  {
    if m < n {
      TotalGrows(entries, m, n - 1);
    }
  }

  class Directory {
    var files: Files
    var written: nat                           // bytes ever written here

    constructor (files: Files)
      ensures this.files == files && written == 0
    {
      this.files, written := files, 0;
    }

    // The copy loop of copy_one_file, into a file just created.
    method CopyContents(e: Entry, expected: nat) returns (ok: bool)
      requires expected <= U64_MAX && e.name in files && files[e.name] == []
      modifies this
      ensures e.name in files && files == old(files)[e.name := files[e.name]]
      ensures |files[e.name]| <= expected
      ensures written == old(written) + |files[e.name]|
      ensures ok <==> Content(e.input).Some? && |Content(e.input).value| == expected
                      && (e.room.None? || expected <= e.room.value)
      ensures ok ==> files[e.name] == Content(e.input).value
    {
      var copied, i := 0, 0;
      while i < |e.input| && Delivers(e.input[i])
        invariant 0 <= i <= Live(e.input)
        invariant files == old(files)[e.name := Concat(e.input, i)]
        invariant copied == |Concat(e.input, i)| <= expected && Takes(e, copied)
        invariant written == old(written) + copied
      {
        var chunk := e.input[i].bytes;
        var total := CheckedAdd(copied, |chunk|);
        ConcatGrows(e.input, i + 1, Live(e.input));
        if total.None? || total.value > expected {
          return false;
        }
        if !Takes(e, total.value) {
          Write(e.name, chunk[..e.room.value - copied]);
          return false;
        }
        copied := total.value;
        Write(e.name, chunk);
        i := i + 1;
      }
      return (i == |e.input| || e.input[i].Chunk?) && copied == expected;
    }

    // copy_one_file: a file is there in full, or as if it had never been opened, unless the
    // removal of what was written fails too.
    method CopyOneFile(e: Entry, expected: nat) returns (ok: bool)
      requires expected <= U64_MAX
      modifies this
      ensures ok <==> e.name !in old(files) && Copies(e, expected)
      ensures ok ==> files == old(files)[e.name := Content(e.input).value] && written == old(written) + expected
      ensures !ok ==>
        || files == old(files)
        || (&& !e.removes && e.name !in old(files) && e.name in files
            && files == old(files)[e.name := files[e.name]] && |files[e.name]| <= expected)
      ensures written <= old(written) + expected
    {
      if !e.opens || e.name in files {
        return false;
      }
      files := files[e.name := []];
      ok := CopyContents(e, expected);
      ok := ok && e.synced && e.moded;
      if !ok && e.removes {
        files := files - {e.name};
      }
    }

    // An import or export: the limits are checked before anything is copied.
    method RunHelper(listing: seq<Entry>, maximumBytes: nat, maximumFiles: nat) returns (ok: bool)
      requires maximumBytes <= U64_MAX
      modifies this
      ensures written <= old(written) + maximumBytes
      ensures ok <==>
        && 0 < maximumFiles <= 32
        && |Listed(listing)| <= maximumFiles && Total(Listed(listing), |Listed(listing)|) <= maximumBytes
        && AllFit(old(files), Items(Listed(listing)), |Listed(listing)|)
      ensures ok ==> Holds(old(files), files, Items(Listed(listing)), |Listed(listing)|)
      ensures Spared(old(files), files, Items(Listed(listing)))
    {
      if maximumFiles == 0 || maximumFiles > MAX_ARTIFACTS {
        return false;
      }
      ok := CopyDirectFiles(listing, maximumBytes, maximumFiles);
    }

    // copy_direct_files.
    method CopyDirectFiles(listing: seq<Entry>, maximumBytes: nat, maximumFiles: nat) returns (ok: bool)
      requires maximumBytes <= U64_MAX
      modifies this
      // No more is ever written than allowed, whatever the sources turn out to hold.
      ensures written <= old(written) + maximumBytes
      // It succeeds exactly when all of it can be copied, and then all of it has been.
      ensures ok <==>
        && |Listed(listing)| <= maximumFiles && Total(Listed(listing), |Listed(listing)|) <= maximumBytes
        && AllFit(old(files), Items(Listed(listing)), |Listed(listing)|)
      ensures ok ==> Holds(old(files), files, Items(Listed(listing)), |Listed(listing)|)
      ensures Spared(old(files), files, Items(Listed(listing)))
    {
      var entries := Listed(listing);
      if |entries| > maximumFiles {
        return false;
      }
      ok := CopyEntries(entries, Items(entries), maximumBytes);
    }

    method CopyEntries(entries: seq<Entry>, ghost items: seq<Item>, maximumBytes: nat) returns (ok: bool)
      requires maximumBytes <= U64_MAX
      requires |items| == |entries| && forall i | 0 <= i < |items| :: items[i] == ItemOf(entries[i])
      modifies this
      ensures written <= old(written) + maximumBytes
      ensures ok <==> Total(entries, |entries|) <= maximumBytes && AllFit(old(files), items, |items|)
      ensures ok ==> Holds(old(files), files, items, |items|)
      ensures Spared(old(files), files, items)
    {
      var total, n := 0, 0;
      while n < |entries|
        invariant 0 <= n <= |entries| && AllFit(old(files), items, n)
        invariant total == Total(entries, n) <= maximumBytes
        invariant Holds(old(files), files, items, n)
        invariant written == old(written) + total
      {
        ghost var before := files;
        var copied, sum := CopyEntry(entries[n], items[n], total, maximumBytes);
        if !copied {
          NotAllCopied(old(files), before, items, entries, n, maximumBytes);
          HoldsSpares(old(files), before, files, items, n);
          return false;
        }
        NextCopied(old(files), before, files, items, n);
        total, n := sum, n + 1;
      }
      ok := true;
    }

    // One turn of the listing loop.
    method CopyEntry(e: Entry, ghost item: Item, total: nat, maximumBytes: nat) returns (ok: bool, sum: nat)
      requires total <= maximumBytes <= U64_MAX && item == ItemOf(e)
      modifies this
      ensures ok <==> item.name !in old(files) && item.content.Some? && total + Length(e) <= maximumBytes
      ensures ok ==> files == old(files)[item.name := item.content.value]
      ensures ok ==> sum == total + Length(e) && written == old(written) + Length(e)
      ensures !ok ==> Remains(old(files), files, item.name)
      ensures written <= old(written) + maximumBytes - total
    {
      ok, sum := false, total;
      if e.stat.Regular? {
        var next := CheckedAdd(total, e.stat.len);
        if next.Some? && next.value <= maximumBytes {
          sum := next.value;
          ok := CopyOneFile(e, e.stat.len);
        }
      }
    }

    method Write(name: string, bytes: string)
      requires name in files
      modifies this
      ensures files == old(files)[name := old(files[name]) + bytes]
      ensures written == old(written) + |bytes|
    {
      files := files[name := files[name] + bytes];
      written := written + |bytes|;
    }
  }

  // The helper is given the plan's own total and count, and is not run for a plan without artifacts:
  // it writes no more than the artifacts declare, and copies all or fails.
  method CopyForPlan(directory: Directory, listing: seq<Entry>, sizes: seq<Option<nat>>) returns (ok: bool)
    requires WithinLimits(sizes)
    modifies directory
    ensures directory.written <= old(directory.written) + ExactTotal(sizes, |sizes|)
    ensures ExactTotal(sizes, |sizes|) <= 10_737_418_240
    ensures Spared(old(directory.files), directory.files, Items(Listed(listing)))
    ensures sizes == [] ==> ok && directory.files == old(directory.files)
    ensures sizes != [] ==> (ok <==>
      && |Listed(listing)| <= |sizes| && Total(Listed(listing), |Listed(listing)|) <= ExactTotal(sizes, |sizes|)
      && AllFit(old(directory.files), Items(Listed(listing)), |Listed(listing)|))
    ensures sizes != [] && ok ==>
      Holds(old(directory.files), directory.files, Items(Listed(listing)), |Listed(listing)|)
  {
    PlanTotals(sizes);
    if sizes == [] {
      return true;
    }
    ok := directory.RunHelper(listing, SaturatingTotal(sizes, |sizes|), |sizes|);
  }
}
