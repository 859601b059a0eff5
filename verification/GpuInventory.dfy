/**
 The GPU inventory publisher: it collects the GPUs, signs a snapshot for the current session
 and sends it, again and again until it is accepted or the session changes, and then only
 when there is something new to say.

 A fingerprint stands for the claims it is the hash of.  What the machine, the state files,
 the network and the clock do in one turn of the loop is given by the turn.
 */
module GpuInventory {
  import opened Outcome

  datatype Binding = Binding(url: string, provider: string, device: string, session: string, keyId: string)

  // A GPU as collected, and as published.
  datatype Device = Device(uuid: string, index: nat, vendor: Option<string>, model: Option<string>, vram: nat)
  datatype Gpu = Gpu(uuid: string, index: nat, vendor: string, model: string, vram: nat)

  datatype Time = Time(text: string, wellFormed: bool)

  datatype Context = Context(binding: Binding, hardware: string)
  datatype Payload = Payload(
    provider: string, device: string, session: string, hardware: string, observed: Time, gpus: seq<Gpu>)
  datatype Claims = Claims(
    provider: string, device: string, session: string, hardware: string, keyId: string, gpus: seq<Gpu>)
  datatype Prepared = Prepared(payload: Payload, keyId: string, fingerprint: Claims, binding: Binding)

  // ---------- Preparing a snapshot ----------

  // Strings in dictionary order.
  predicate Below(a: string, b: string) {
    b != [] && (a == [] || a[0] < b[0] || (a[0] == b[0] && Below(a[1..], b[1..])))
  }

  predicate Precedes(g: Gpu, h: Gpu) {
    g.index < h.index || (g.index == h.index && Below(Lower(g.uuid), Lower(h.uuid)))
  }

  function Insert(gpus: seq<Gpu>, g: Gpu): seq<Gpu> {
    if gpus == [] then [g]
    else if Precedes(g, gpus[0]) then [g] + gpus
    else [gpus[0]] + Insert(gpus[1..], g)
  }

  // The first GPUs in order, one inserted after the other.
  function SortFirst(gpus: seq<Gpu>, n: nat): seq<Gpu>
    requires n <= |gpus|
  {
    if n == 0 then [] else Insert(SortFirst(gpus, n - 1), gpus[n - 1])
  }

  function Sort(gpus: seq<Gpu>): seq<Gpu> {
    SortFirst(gpus, |gpus|)
  }

  predicate Identified(d: Device) {
    d.vendor.Some? && d.model.Some?
  }

  function Published(d: Device): Gpu
    requires Identified(d)
  {
    Gpu(d.uuid, d.index, d.vendor.value, d.model.value, d.vram)
  }

  function PublishAll(devices: seq<Device>): seq<Gpu>
    requires forall i | 0 <= i < |devices| :: Identified(devices[i])
  {
    seq(|devices|, i requires 0 <= i < |devices| => Published(devices[i]))
  }

  // The GPUs of the payload.
  function Arrange(devices: seq<Device>): seq<Gpu>
    requires forall i | 0 <= i < |devices| :: Identified(devices[i])
  {
    Sort(PublishAll(devices))
  }

  predicate SafeShort(s: string, limit: nat) {
    0 < |s| <= limit && forall i | 0 <= i < |s| :: 0x20 <= s[i] as int < 0x7f
  }

  predicate SafeUuid(s: string) {
    && 0 < |s| <= 128
    && forall i | 0 <= i < |s| ::
         'a' <= s[i] <= 'z' || 'A' <= s[i] <= 'Z' || '0' <= s[i] <= '9' || s[i] in "_-.:"
  }

  predicate ValidGpu(g: Gpu) {
    SafeUuid(g.uuid) && SafeShort(g.vendor, 128) && SafeShort(g.model, 128) && g.vram != 0
  }

  predicate DistinctIndices(gpus: seq<Gpu>) {
    forall i, j | 0 <= i < j < |gpus| :: gpus[i].index != gpus[j].index
  }

  predicate DistinctUuids(gpus: seq<Gpu>) {
    forall i, j | 0 <= i < j < |gpus| :: Lower(gpus[i].uuid) != Lower(gpus[j].uuid)
  }

  predicate ValidPayload(p: Payload) {
    && SafeShort(p.provider, 256) && SafeShort(p.device, 256) && SafeShort(p.session, 256) && SafeShort(p.hardware, 256)
    && p.observed.wellFormed && |p.gpus| <= 32
    && (forall i | 0 <= i < |p.gpus| :: ValidGpu(p.gpus[i]))
    && DistinctUuids(p.gpus) && DistinctIndices(p.gpus)
  }

  // A snapshot is signed for the binding it was made under.
  predicate Coherent(p: Prepared, b: Binding) {
    && p.binding == b && p.payload.provider == b.provider && p.payload.device == b.device
    && p.payload.session == b.session && p.keyId == b.keyId
  }

  function Prepare(c: Context, devices: seq<Device>, observed: Time): (r: Option<Prepared>)
    ensures r.Some? ==> Coherent(r.value, c.binding)
    ensures r.Some? ==> ValidPayload(r.value.payload)
  {
    if exists i | 0 <= i < |devices| :: !Identified(devices[i]) then None
    else
      var b := c.binding;
      var gpus := Arrange(devices);
      var payload := Payload(b.provider, b.device, b.session, c.hardware, observed, gpus);
      if !ValidPayload(payload) then None
      else Some(Prepared(payload, b.keyId, Claims(b.provider, b.device, b.session, c.hardware, b.keyId, gpus), b))
  }

  // ---------- Enumeration order does not matter ----------

  predicate ByIndex(gpus: seq<Gpu>) {
    forall i, j | 0 <= i < j < |gpus| :: gpus[i].index <= gpus[j].index
  }

  lemma {:induction false} InsertHas(gpus: seq<Gpu>, g: Gpu, x: Gpu)
    ensures x in Insert(gpus, g) <==> x == g || x in gpus
  {
    if gpus != [] && !Precedes(g, gpus[0]) {
      InsertHas(gpus[1..], g, x);
      assert gpus == [gpus[0]] + gpus[1..];
    }
  }

  lemma {:induction false} InsertSorts(gpus: seq<Gpu>, g: Gpu)
    requires ByIndex(gpus)
    ensures ByIndex(Insert(gpus, g)) && |Insert(gpus, g)| == |gpus| + 1
  {
    if gpus != [] && !Precedes(g, gpus[0]) {
      var rest := gpus[1..];
      InsertSorts(rest, g);
      var more := Insert(rest, g);
      forall j | 0 <= j < |more| ensures gpus[0].index <= more[j].index {
        InsertHas(rest, g, more[j]);
      }
    }
  }

  // What is published is what was collected, in order of index.
  lemma {:induction false} SortSorts(gpus: seq<Gpu>, n: nat)
    requires n <= |gpus|
    ensures ByIndex(SortFirst(gpus, n)) && |SortFirst(gpus, n)| == n
    ensures forall x :: x in SortFirst(gpus, n) <==> exists i | 0 <= i < n :: gpus[i] == x
  {
    if n > 0 {
      var rest, last := SortFirst(gpus, n - 1), gpus[n - 1];
      SortSorts(gpus, n - 1);
      InsertSorts(rest, last);
      forall x ensures x in Insert(rest, last) <==> exists i | 0 <= i < n :: gpus[i] == x {
        InsertHas(rest, last, x);
      }
    }
  }

  lemma {:induction false} SortFirstSame(x: seq<Gpu>, y: seq<Gpu>, n: nat)
    requires n <= |x| && n <= |y| && forall i | 0 <= i < n :: x[i] == y[i]
    ensures SortFirst(x, n) == SortFirst(y, n)
  {
    if n > 0 {
      SortFirstSame(x, y, n - 1);
    }
  }

  lemma {:induction false} InsertsCommute(gpus: seq<Gpu>, g: Gpu, h: Gpu)
    requires g.index != h.index
    ensures Insert(Insert(gpus, g), h) == Insert(Insert(gpus, h), g)
  {
    if gpus != [] && !Precedes(g, gpus[0]) && !Precedes(h, gpus[0]) {
      InsertsCommute(gpus[1..], g, h);
    }
  }

  lemma {:induction false} ArrangeLast(rest: seq<Device>, last: Device)
    requires Identified(last) && forall i | 0 <= i < |rest| :: Identified(rest[i])
    ensures Arrange(rest + [last]) == Insert(Arrange(rest), Published(last))
  {
    SortFirstSame(PublishAll(rest + [last]), PublishAll(rest), |rest|);
  }

  function Without(devices: seq<Device>, k: nat): seq<Device>
    requires k < |devices|
  {
    devices[..k] + devices[k + 1..]
  }

  predicate AllIdentified(devices: seq<Device>) {
    forall i | 0 <= i < |devices| :: Identified(devices[i])
  }

  // A device enumerated early might as well come last.
  lemma {:induction false} MoveToEnd(a: seq<Device>, x: Device, b: seq<Device>)
    requires AllIdentified(a) && Identified(x) && AllIdentified(b)
    requires forall i | 0 <= i < |b| :: b[i].index != x.index
    ensures Arrange(a + [x] + b) == Insert(Arrange(a + b), Published(x))
  {
    if b == [] {
      assert a + [x] + b == a + [x] && a + b == a;
      ArrangeLast(a, x);
    } else {
      var init, last := b[..|b| - 1], b[|b| - 1];
      MoveToEnd(a, x, init);
      MoveOverOne(a + [x] + init, a + init, x, last);
      assert a + [x] + b == (a + [x] + init) + [last];
      assert a + b == (a + init) + [last];
    }
  }

  lemma {:induction false} MoveOverOne(front: seq<Device>, without: seq<Device>, x: Device, last: Device)
    requires AllIdentified(front) && AllIdentified(without) && Identified(x) && Identified(last)
    requires Arrange(front) == Insert(Arrange(without), Published(x)) && x.index != last.index
    ensures Arrange(front + [last]) == Insert(Arrange(without + [last]), Published(x))
  {
    ArrangeLast(front, last);
    ArrangeLast(without, last);
    InsertsCommute(Arrange(without), Published(x), Published(last));
  }

  predicate DistinctDevices(devices: seq<Device>) {
    forall i, j | 0 <= i < j < |devices| :: devices[i].index != devices[j].index
  }

  lemma {:induction false} WithoutCounts(devices: seq<Device>, k: nat)
    requires k < |devices|
    ensures multiset(Without(devices, k)) == multiset(devices) - multiset{devices[k]}
  {
    assert devices == devices[..k] + [devices[k]] + devices[k + 1..];
  }

  // Where the other enumeration has the last device, and what is left of both without it.
  lemma {:induction false} FindLast(devices: seq<Device>, more: seq<Device>) returns (k: nat)
    requires multiset(devices) == multiset(more) && devices != [] && DistinctDevices(devices)
    ensures k < |more| && more[k] == devices[|devices| - 1]
    ensures multiset(Without(more, k)) == multiset(devices[..|devices| - 1])
    ensures forall i | k < i < |more| :: more[i].index != more[k].index
  {
    var n := |devices| - 1;
    var last, rest := devices[n], devices[..n];
    assert last in multiset(devices);
    assert last in more;
    k :| 0 <= k < |more| && more[k] == last;
    WithoutCounts(more, k);
    WithoutCounts(devices, n);
    assert Without(devices, n) == rest;
    forall i | k < i < |more| ensures more[i].index != more[k].index {
      assert Without(more, k)[i - 1] == more[i];
      assert more[i] in multiset(Without(more, k));
      assert more[i] in rest;
    }
  }

  lemma {:induction false} ArrangeIgnoresOrder(devices: seq<Device>, more: seq<Device>)
    requires multiset(devices) == multiset(more) && DistinctDevices(devices)
    requires forall i | 0 <= i < |devices| :: Identified(devices[i])
    requires forall i | 0 <= i < |more| :: Identified(more[i])
    ensures Arrange(devices) == Arrange(more)
    decreases |devices|
  {
    if devices == [] {
      assert |more| == |multiset(more)|;
    } else {
      var n := |devices| - 1;
      var last, rest := devices[n], devices[..n];
      assert devices == rest + [last];
      var k := FindLast(devices, more);
      var others := Without(more, k);
      ArrangeIgnoresOrder(rest, others);
      MoveToEnd(more[..k], last, more[k + 1..]);
      assert more == more[..k] + [last] + more[k + 1..];
      ArrangeLast(rest, last);
    }
  }

  lemma {:induction false} DistinctTail(g: Gpu, gpus: seq<Gpu>)
    requires DistinctIndices([g] + gpus)
    ensures DistinctIndices(gpus) && forall x | x in gpus :: x.index != g.index
  {
    var all := [g] + gpus;
    forall i, j | 0 <= i < j < |gpus| ensures gpus[i].index != gpus[j].index {
      assert all[i + 1].index != all[j + 1].index;
    }
    forall x | x in gpus ensures x.index != g.index {
      var i :| 0 <= i < |gpus| && gpus[i] == x;
      assert all[0].index != all[i + 1].index;
    }
  }

  lemma {:induction false} InsertDistinct(gpus: seq<Gpu>, g: Gpu)
    requires DistinctIndices(Insert(gpus, g))
    ensures DistinctIndices(gpus) && forall x | x in gpus :: x.index != g.index
  {
    if gpus != [] {
      var first, rest := gpus[0], gpus[1..];
      assert gpus == [first] + rest;
      if Precedes(g, first) {
        DistinctTail(g, gpus);
      } else {
        DistinctTail(first, Insert(rest, g));
        InsertDistinct(rest, g);
        InsertHas(rest, g, g);
        forall x | x in rest ensures x.index != first.index {
          InsertHas(rest, g, x);
        }
      }
    }
  }

  lemma {:induction false} ArrangeKeepsAll(devices: seq<Device>)
    requires forall i | 0 <= i < |devices| :: Identified(devices[i])
    ensures forall i | 0 <= i < |devices| :: Published(devices[i]) in Arrange(devices)
    ensures DistinctIndices(Arrange(devices)) ==> DistinctDevices(devices)
  {
    if devices != [] {
      var n := |devices| - 1;
      var rest, g := devices[..n], Published(devices[n]);
      assert devices == rest + [devices[n]];
      ArrangeLast(rest, devices[n]);
      ArrangeKeepsAll(rest);
      forall i | 0 <= i <= n ensures Published(devices[i]) in Arrange(devices) {
        InsertHas(Arrange(rest), g, Published(devices[i]));
        assert i < n ==> devices[i] == rest[i];
      }
      if DistinctIndices(Arrange(devices)) {
        InsertDistinct(Arrange(rest), g);
        forall i | 0 <= i < n ensures devices[i].index != devices[n].index {
          assert rest[i] == devices[i] && Published(rest[i]) in Arrange(rest);
        }
      }
    }
  }

  // Whatever order the GPUs are enumerated in and whenever they are observed, the snapshot is
  // made or refused alike, and its fingerprint is the same.
  lemma {:induction false} SameFingerprint(c: Context, devices: seq<Device>, more: seq<Device>,
                                           observed: Time, later: Time)
    requires multiset(devices) == multiset(more) && observed.wellFormed && later.wellFormed
    ensures Prepare(c, devices, observed).Some? <==> Prepare(c, more, later).Some?
    ensures Prepare(c, devices, observed).Some? ==>
              Prepare(c, devices, observed).value.fingerprint == Prepare(c, more, later).value.fingerprint
  {
    if Prepare(c, devices, observed).Some? {
      SamePublication(c, devices, more, observed, later);
    }
    if Prepare(c, more, later).Some? {
      SamePublication(c, more, devices, later, observed);
    }
  }

  lemma {:induction false} SamePublication(c: Context, devices: seq<Device>, more: seq<Device>,
                                           observed: Time, later: Time)
    requires multiset(devices) == multiset(more) && later.wellFormed && Prepare(c, devices, observed).Some?
    ensures Prepare(c, more, later).Some?
    ensures Prepare(c, devices, observed).value.fingerprint == Prepare(c, more, later).value.fingerprint
  {
    forall i | 0 <= i < |more| ensures Identified(more[i]) {
      assert more[i] in multiset(more);
      assert more[i] in devices;
    }
    ArrangeKeepsAll(devices);
    ArrangeIgnoresOrder(devices, more);
  }

  // ---------- What a snapshot says ----------

  // A GPU is published as it was found.
  predicate Shows(g: Gpu, d: Device) {
    g.uuid == d.uuid && g.index == d.index && Some(g.vendor) == d.vendor && Some(g.model) == d.model && g.vram == d.vram
  }

  lemma {:induction false} ArrangeShowsAll(devices: seq<Device>)
    requires AllIdentified(devices)
    ensures |Arrange(devices)| == |devices| && ByIndex(Arrange(devices))
    ensures forall d | d in devices :: exists g | g in Arrange(devices) :: Shows(g, d)
    ensures forall g | g in Arrange(devices) :: exists d | d in devices :: Shows(g, d)
  {
    var gpus := PublishAll(devices);
    SortSorts(gpus, |gpus|);
    forall d | d in devices ensures exists g | g in Arrange(devices) :: Shows(g, d) {
      var i :| 0 <= i < |devices| && devices[i] == d;
      assert gpus[i] in Arrange(devices) && Shows(gpus[i], d);
    }
    forall g | g in Arrange(devices) ensures exists d | d in devices :: Shows(g, d) {
      var i :| 0 <= i < |gpus| && gpus[i] == g;
      assert Shows(g, devices[i]) && devices[i] in devices;
    }
  }

  // A snapshot shows every GPU found, as it was found, once and in order of index, and no other; and the
  // fingerprint by which it is known is of exactly what it says: identity, hardware, key and GPUs.
  lemma {:induction false} SnapshotTells(c: Context, devices: seq<Device>, observed: Time)
    requires Prepare(c, devices, observed).Some?
    ensures var p := Prepare(c, devices, observed).value;
      && p.payload.hardware == c.hardware && p.payload.observed == observed
      && |p.payload.gpus| == |devices| && ByIndex(p.payload.gpus) && DistinctIndices(p.payload.gpus)
      && (forall d | d in devices :: exists g | g in p.payload.gpus :: Shows(g, d))
      && (forall g | g in p.payload.gpus :: exists d | d in devices :: Shows(g, d))
      && p.fingerprint.gpus == p.payload.gpus && p.fingerprint.hardware == p.payload.hardware
      && p.fingerprint.provider == p.payload.provider && p.fingerprint.device == p.payload.device
      && p.fingerprint.session == p.payload.session && p.fingerprint.keyId == p.keyId
  {
    ArrangeShowsAll(devices);
  }

  // An identifier: some printable ASCII characters, but not too many.
  predicate Identifier(s: string, limit: nat) {
    1 <= |s| <= limit && forall i | 0 <= i < |s| :: ' ' <= s[i] <= '~'
  }

  // A GPU that can be published.
  predicate Publishable(d: Device) {
    && 1 <= |d.uuid| <= 128
    && (forall i | 0 <= i < |d.uuid| ::
          || 'a' <= d.uuid[i] <= 'z' || 'A' <= d.uuid[i] <= 'Z' || '0' <= d.uuid[i] <= '9'
          || d.uuid[i] == '_' || d.uuid[i] == '-' || d.uuid[i] == '.' || d.uuid[i] == ':')
    && d.vendor.Some? && Identifier(d.vendor.value, 128)
    && d.model.Some? && Identifier(d.model.value, 128) && d.vram > 0
  }

  predicate SameText(a: string, b: string) {
    |a| == |b| && forall i | 0 <= i < |a| ::
      a[i] == b[i] || ('A' <= a[i] <= 'Z' && a[i] as int + 32 == b[i] as int)
      || ('A' <= b[i] <= 'Z' && b[i] as int + 32 == a[i] as int)
  }

  lemma {:induction false} LowerIsSameText(a: string, b: string)
    ensures Lower(a) == Lower(b) <==> SameText(a, b)
  {
    if Lower(a) == Lower(b) {
      assert |Lower(a)| == |a| && |Lower(b)| == |b|;
      forall i | 0 <= i < |a| ensures
        || a[i] == b[i] || ('A' <= a[i] <= 'Z' && a[i] as int + 32 == b[i] as int)
        || ('A' <= b[i] <= 'Z' && b[i] as int + 32 == a[i] as int)
      {
        assert Lower(a)[i] == Lower(b)[i];
      }
    }
  }

  lemma {:induction false} SafeIsIdentifier(s: string, limit: nat)
    ensures SafeShort(s, limit) <==> Identifier(s, limit)
  {
  }

  lemma {:induction false} PublishableIsValid(d: Device)
    ensures Publishable(d) <==> Identified(d) && ValidGpu(Published(d))
  {
  }

  // The snapshot holds as many of each GPU as were found.
  lemma {:induction false} ArrangePairs(devices: seq<Device>)
    requires AllIdentified(devices)
    ensures multiset(Arrange(devices)) == multiset(PublishAll(devices))
  {
    var gpus := PublishAll(devices);
    SortCounts(gpus, |gpus|);
    assert gpus[..|gpus|] == gpus;
  }

  lemma {:induction false} InsertCounts(gpus: seq<Gpu>, g: Gpu)
    ensures multiset(Insert(gpus, g)) == multiset(gpus) + multiset{g}
  {
    if gpus != [] && !Precedes(g, gpus[0]) {
      InsertCounts(gpus[1..], g);
      assert gpus == [gpus[0]] + gpus[1..];
    }
  }

  lemma {:induction false} InsertAdds(gpus: seq<Gpu>, others: seq<Gpu>, g: Gpu)
    requires multiset(gpus) == multiset(others)
    ensures multiset(Insert(gpus, g)) == multiset(others + [g])
  {
    hide Insert;
    InsertCounts(gpus, g);
  }

  lemma {:induction false} SortCounts(gpus: seq<Gpu>, n: nat)
    requires n <= |gpus|
    ensures multiset(SortFirst(gpus, n)) == multiset(gpus[..n])
  {
    hide Insert;
    if n > 0 {
      SortCounts(gpus, n - 1);
      InsertAdds(SortFirst(gpus, n - 1), gpus[..n - 1], gpus[n - 1]);
      assert gpus[..n] == gpus[..n - 1] + [gpus[n - 1]];
    }
  }

  // No two of them are alike in some respect.
  ghost predicate Unlike(gpus: seq<Gpu>, alike: (Gpu, Gpu) -> bool) {
    forall i, j | 0 <= i < j < |gpus| :: !alike(gpus[i], gpus[j])
  }

  lemma {:induction false} TwiceThere(gpus: seq<Gpu>, g: Gpu)
    ensures multiset(gpus)[g] >= 1 ==> g in gpus
    ensures multiset(gpus)[g] >= 2 ==> exists i, j | 0 <= i < j < |gpus| :: gpus[i] == g && gpus[j] == g
  {
    if gpus != [] {
      var n := |gpus| - 1;
      var rest := gpus[..n];
      assert gpus == rest + [gpus[n]];
      TwiceThere(rest, g);
      if multiset(gpus)[g] >= 2 {
        if gpus[n] == g {
          var i :| 0 <= i < |rest| && rest[i] == g;
          assert gpus[i] == g && gpus[n] == g;
        } else {
          var i, j :| 0 <= i < j < |rest| && rest[i] == g && rest[j] == g;
          assert gpus[i] == g && gpus[j] == g;
        }
      }
    }
  }

  lemma {:induction false} CountedTwice(gpus: seq<Gpu>, i: nat, j: nat)
    requires i < j < |gpus| && gpus[i] == gpus[j]
    ensures multiset(gpus)[gpus[i]] >= 2
  {
    assert gpus == gpus[..j] + [gpus[j]] + gpus[j + 1..];
    assert gpus[..j][i] == gpus[i];
    assert gpus[i] in multiset(gpus[..j]);
  }

  // In whatever order they come.
  lemma {:induction false} UnlikeInAnyOrder(a: seq<Gpu>, b: seq<Gpu>, alike: (Gpu, Gpu) -> bool)
    requires multiset(a) == multiset(b) && Unlike(a, alike)
    requires forall g :: alike(g, g)
    requires forall g, h :: alike(g, h) ==> alike(h, g)
    ensures Unlike(b, alike)
  {
    forall i, j | 0 <= i < j < |b| ensures !alike(b[i], b[j]) {
      assert alike(b[j], b[i]) <==> alike(b[i], b[j]);
      if b[i] == b[j] {
        CountedTwice(b, i, j);
        TwiceThere(a, b[i]);
      }
      assert b[i] in multiset(b) && b[j] in multiset(b);
      assert b[i] in a && b[j] in a;
      var p :| 0 <= p < |a| && a[p] == b[i];
      var q :| 0 <= q < |a| && a[q] == b[j];
    }
  }

  predicate SameIndex(g: Gpu, h: Gpu) { g.index == h.index }
  predicate SameUuid(g: Gpu, h: Gpu) { Lower(g.uuid) == Lower(h.uuid) }

  lemma {:induction false} ArrangedUnlike(devices: seq<Device>)
    requires AllIdentified(devices)
    ensures DistinctIndices(Arrange(devices)) <==> DistinctIndices(PublishAll(devices))
    ensures DistinctUuids(Arrange(devices)) <==> DistinctUuids(PublishAll(devices))
  {
    var a, b := Arrange(devices), PublishAll(devices);
    ArrangePairs(devices);
    assert Unlike(a, SameIndex) == DistinctIndices(a) && Unlike(b, SameIndex) == DistinctIndices(b);
    assert Unlike(a, SameUuid) == DistinctUuids(a) && Unlike(b, SameUuid) == DistinctUuids(b);
    if Unlike(a, SameIndex) { UnlikeInAnyOrder(a, b, SameIndex); }
    if Unlike(b, SameIndex) { UnlikeInAnyOrder(b, a, SameIndex); }
    if Unlike(a, SameUuid) { UnlikeInAnyOrder(a, b, SameUuid); }
    if Unlike(b, SameUuid) { UnlikeInAnyOrder(b, a, SameUuid); }
  }

  lemma {:induction false} ArrangedHas(devices: seq<Device>, g: Gpu)
    requires AllIdentified(devices)
    ensures g in Arrange(devices) <==> g in PublishAll(devices)
  {
    ArrangePairs(devices);
    assert g in Arrange(devices) <==> g in multiset(Arrange(devices));
    assert g in PublishAll(devices) <==> g in multiset(PublishAll(devices));
  }

  lemma {:induction false} ArrangedValid(devices: seq<Device>)
    requires AllIdentified(devices)
    ensures (forall i | 0 <= i < |Arrange(devices)| :: ValidGpu(Arrange(devices)[i])) <==>
      (forall i | 0 <= i < |devices| :: Publishable(devices[i]))
  {
    hide Publishable, ValidGpu, Arrange, Published;
    var a, b := Arrange(devices), PublishAll(devices);
    forall i | 0 <= i < |devices| ensures b[i] in a && (Publishable(devices[i]) <==> ValidGpu(b[i])) {
      ArrangedHas(devices, b[i]);
      PublishableIsValid(devices[i]);
    }
    forall i | 0 <= i < |a| ensures a[i] in b {
      ArrangedHas(devices, a[i]);
    }
  }

  // The GPUs can be published together: at most 32, each publishable, no two
  // with one index, or with one identifier but for the case of its letters.
  predicate PublishableTogether(devices: seq<Device>) {
    && |devices| <= 32 && (forall i | 0 <= i < |devices| :: Publishable(devices[i]))
    && (forall i, j | 0 <= i < j < |devices| ::
          devices[i].index != devices[j].index && !SameText(devices[i].uuid, devices[j].uuid))
  }

  lemma {:induction false} PublishedApart(devices: seq<Device>)
    requires AllIdentified(devices)
    ensures DistinctIndices(PublishAll(devices)) && DistinctUuids(PublishAll(devices)) <==>
      forall i, j | 0 <= i < j < |devices| ::
        devices[i].index != devices[j].index && !SameText(devices[i].uuid, devices[j].uuid)
  {
    var b := PublishAll(devices);
    forall i, j | 0 <= i < j < |devices|
      ensures (b[i].index == b[j].index <==> devices[i].index == devices[j].index)
      ensures (Lower(b[i].uuid) == Lower(b[j].uuid) <==> SameText(devices[i].uuid, devices[j].uuid))
    {
      LowerIsSameText(devices[i].uuid, devices[j].uuid);
    }
  }

  // A snapshot is made exactly of what can be published, at a well-formed time, by an agent that is known.
  lemma {:induction false} PreparedExactly(c: Context, devices: seq<Device>, observed: Time)
    ensures Prepare(c, devices, observed).Some? <==>
      (&& PublishableTogether(devices) && observed.wellFormed && Identifier(c.hardware, 256)
       && Identifier(c.binding.provider, 256) && Identifier(c.binding.device, 256)
       && Identifier(c.binding.session, 256))
  {
    hide SafeShort, Identifier, ValidGpu, Publishable, SameText, DistinctIndices, DistinctUuids;
    SafeIsIdentifier(c.hardware, 256);
    SafeIsIdentifier(c.binding.provider, 256);
    SafeIsIdentifier(c.binding.device, 256);
    SafeIsIdentifier(c.binding.session, 256);
    forall i | 0 <= i < |devices| ensures Publishable(devices[i]) ==> Identified(devices[i]) {
      PublishableIsValid(devices[i]);
    }
    if AllIdentified(devices) {
      ArrangeShowsAll(devices);
      ArrangedUnlike(devices);
      ArrangedValid(devices);
      PublishedApart(devices);
    }
  }

  // So GPUs that are not the same make another fingerprint.
  lemma {:induction false} ChangeShows(c: Context, devices: seq<Device>, more: seq<Device>, observed: Time, later: Time)
    requires Prepare(c, devices, observed).Some? && Prepare(c, more, later).Some?
    requires exists d :: (d in devices) != (d in more)
    ensures Prepare(c, devices, observed).value.fingerprint != Prepare(c, more, later).value.fingerprint
  {
    var d :| (d in devices) != (d in more);
    SnapshotTells(c, devices, observed);
    SnapshotTells(c, more, later);
    var p, q := Prepare(c, devices, observed).value.payload.gpus, Prepare(c, more, later).value.payload.gpus;
    if d in devices {
      var g :| g in p && Shows(g, d);
      assert forall e | e in more :: !Shows(g, e);
    } else {
      var g :| g in q && Shows(g, d);
      assert forall e | e in devices :: !Shows(g, e);
    }
  }

  // ---------- Waiting between attempts ----------

  const U32_MAX: nat := 0xffff_ffff
  const RETRY_MIN: nat := 2
  const RETRY_MAX: nat := 60
  const PROBE_INTERVAL: nat := 60

  function PowerOfTwo(n: nat): nat {
    if n == 0 then 1 else 2 * PowerOfTwo(n - 1)
  }

  class RetryBackoff {
    var failures: nat

    constructor ()
      ensures failures == 0
    {
      failures := 0;
    }

    // 2, 4, 8, 16 and 32 seconds, and 60 from the sixth failure in a row on.
    method NextDelay() returns (seconds: nat)
      requires failures <= U32_MAX
      modifies this
      ensures failures == Min(old(failures) + 1, U32_MAX)
      ensures seconds == [2, 4, 8, 16, 32, 60][Min(old(failures), 5)]
    {
      var multiplier := PowerOfTwo(Min(failures, 5));
      failures := Min(failures + 1, U32_MAX);
      seconds := Min(RETRY_MIN * multiplier, RETRY_MAX);
    }

    method Reset()
      modifies this
      ensures failures == 0
    {
      failures := 0;
    }
  }

  // ---------- The publisher ----------

  // What the publisher does in a turn: it sends a snapshot, or drops one because another binding
  // is there than the one expected.
  datatype Event =
    | Sent(turn: nat, current: Binding, prepared: Prepared, ok: bool)
    | Dropped(turn: nat, expected: Binding, found: Binding)

  const NO_BINDING := Binding("", "", "", "", "")
  const NO_PAYLOAD := Payload("", "", "", "", Time("", false), [])

  // A snapshot signed for its own binding, as every one that is prepared.
  type Signed = p: Prepared | Coherent(p, p.binding)
    witness Prepared(NO_PAYLOAD, "", Claims("", "", "", "", "", []), NO_BINDING)

  // How the task that collects the GPUs and prepares a snapshot ends.
  datatype Build = Interrupted | BuildLost | BuildFailed | Built(snapshot: Signed)

  // build_signed_gpu_inventory.
  function Collect(c: Context, devices: seq<Device>, observed: Time): Build {
    var p := Prepare(c, devices, observed);
    if p.Some? then Built(p.value) else BuildFailed
  }

  datatype TaskEnd = Finished | TaskLost | ShutdownFirst

  datatype Wait = Elapsed | Found(binding: Binding) | ShutDown

  // All that the outside does in one turn: the binding on disk when it is first read and when it
  // is read again to send, the collection, the answer, and how the waits end.
  datatype Turn = Turn(
    stop: bool, loaded: Option<Binding>, now: int, build: Build,
    current: Option<Binding>, accepted: bool, end: TaskEnd, wait: Wait)

  type Publication = (Binding, Claims)

  function Identity(p: Prepared): Publication {
    (p.binding, p.fingerprint)
  }

  // The last publication the publisher knows was accepted.
  function LastAccepted(log: seq<Event>, n: nat): Option<Publication>
    requires n <= |log|
  {
    if n == 0 then None
    else if log[n - 1].Sent? && log[n - 1].ok then Some(Identity(log[n - 1].prepared))
    else LastAccepted(log, n - 1)
  }

  // ---------- One turn after the other ----------

  datatype State = State(
    last: Option<Publication>, pending: Option<Prepared>, nextProbe: int, failures: nat, log: seq<Event>, stopped: bool)

  const START := State(None, None, 0, 0, [], false)

  function Fail(s: State): State {
    s.(failures := Min(s.failures + 1, U32_MAX))
  }

  function Drop(s: State, n: nat, expected: Binding, found: Binding, now: int): State {
    s.(pending := None, nextProbe := now, failures := 0, log := s.log + [Dropped(n, expected, found)])
  }

  // A pending snapshot is of no use under another binding.
  function Reconsider(s: State, n: nat, turn: Turn, binding: Binding): State {
    if s.pending.Some? && s.pending.value.binding != binding then
      Drop(s, n, s.pending.value.binding, binding, turn.now)
    else s
  }

  predicate WantsProbe(s: State, turn: Turn, binding: Binding) {
    s.pending.None? && (s.last.None? || s.last.value.0 != binding || turn.now >= s.nextProbe)
  }

  // already_published decides whether a new snapshot is worth sending.
  function Probe(s: State, turn: Turn, binding: Binding): State {
    if turn.build.Interrupted? then s.(stopped := true)
    else if !turn.build.Built? then
      if turn.wait.ShutDown? then Fail(s).(stopped := true)
      else if turn.wait.Found? && turn.wait.binding != binding && !turn.build.BuildLost? then s.(failures := 0)
      else Fail(s)
    else if s.last == Some(Identity(turn.build.snapshot)) then
      s.(nextProbe := turn.now + PROBE_INTERVAL, failures := 0, stopped := turn.wait.ShutDown?)
    else s.(pending := Some(turn.build.snapshot))
  }

  function ProbeDue(s: State, turn: Turn, binding: Binding): State {
    if WantsProbe(s, turn, binding) then Probe(s, turn, binding) else s
  }

  // ensure_submission_binding, and the request when it passes.
  function Submit(s: State, n: nat, turn: Turn): State
    requires s.pending.Some?
  {
    if turn.current.Some? && Coherent(s.pending.value, turn.current.value) then
      s.(log := s.log + [Sent(n, turn.current.value, s.pending.value, turn.accepted && turn.end == Finished)])
    else s
  }

  predicate Accepts(p: Prepared, turn: Turn) {
    turn.current.Some? && Coherent(p, turn.current.value) && turn.accepted && turn.end == Finished
  }

  // Send what is pending, and wait if it was not accepted.
  function Deliver(s: State, n: nat, turn: Turn, binding: Binding): State
    requires s.pending.Some?
  {
    var t := Submit(s, n, turn);
    if turn.end.ShutdownFirst? then t.(stopped := true)
    else if Accepts(s.pending.value, turn) then
      t.(last := Some(Identity(s.pending.value)), pending := None,
         nextProbe := turn.now + PROBE_INTERVAL, failures := 0)
    else if turn.wait.ShutDown? then Fail(t).(stopped := true)
    else if turn.wait.Found? && turn.wait.binding != binding && turn.end.Finished? then
      Drop(t, n, binding, turn.wait.binding, turn.now)
    else Fail(t)
  }

  function Step(s: State, n: nat, turn: Turn): State {
    if s.stopped then s
    else if turn.stop then s.(stopped := true)
    else if turn.loaded.None? then s.(stopped := turn.wait.ShutDown?)
    else
      var binding := turn.loaded.value;
      var t := Reconsider(s, n, turn, binding);
      var u := ProbeDue(t, turn, binding);
      if u.stopped then u
      else if u.pending.Some? then Deliver(u, n, turn, binding)
      else if WantsProbe(t, turn, binding) then u
      else u.(stopped := turn.wait.ShutDown?)
  }

  function Play(turns: seq<Turn>, n: nat): State
    requires n <= |turns|
  {
    if n == 0 then START else Step(Play(turns, n - 1), n - 1, turns[n - 1])
  }

  lemma {:induction false} StoppedStays(turns: seq<Turn>, n: nat, m: nat)
    requires n <= m <= |turns| && Play(turns, n).stopped
    ensures Play(turns, m) == Play(turns, n)
    decreases m
  {
    if n < m {
      StoppedStays(turns, n, m - 1);
    }
  }

  // ---------- What every run keeps ----------

  // What an event says is what its turn brought: a snapshot was sent under the binding read just
  // then, and accepted exactly when the answer was; one was dropped for a binding that was found.
  predicate TrueTo(e: Event, turns: seq<Turn>) {
    && e.turn < |turns|
    && var t := turns[e.turn];
    && (e.Sent? ==> t.current == Some(e.current) && (e.ok <==> t.accepted && t.end == Finished))
    && (e.Dropped? ==> t.loaded == Some(e.found) || (t.wait == Found(e.found) && t.loaded == Some(e.expected)))
  }

  predicate TellsTurns(log: seq<Event>, turns: seq<Turn>) {
    && (forall j | 0 <= j < |log| :: TrueTo(log[j], turns))
    && (forall i, j | 0 <= i < j < |log| :: log[i].turn <= log[j].turn)
    && (forall i, j | 0 <= i < j < |log| && log[i].Sent? && log[j].Sent? :: log[i].turn < log[j].turn)
  }

  // Every snapshot sent was made and signed for the binding read just before.
  predicate SendsCurrent(log: seq<Event>) {
    forall j | 0 <= j < |log| && log[j].Sent? :: MadeFor(log[j].prepared, log[j].current)
  }

  predicate MadeFor(p: Prepared, b: Binding) {
    && p.binding == b && p.payload.provider == b.provider && p.payload.device == b.device
    && p.payload.session == b.session && p.keyId == b.keyId
  }

  // A snapshot that was not accepted is sent again as it is, unless the binding was seen to change.
  predicate RetriesUnchanged(log: seq<Event>) {
    && (forall j | 0 < j < |log| && log[j].Sent? && log[j - 1].Sent? && !log[j - 1].ok ::
          log[j].prepared == log[j - 1].prepared)
    && (forall j | 0 <= j < |log| && log[j].Dropped? :: log[j].expected != log[j].found)
  }

  // Nothing is sent that is already published.
  predicate SendsNews(log: seq<Event>) {
    forall j | 0 <= j < |log| && log[j].Sent? :: LastAccepted(log, j) != Some(Identity(log[j].prepared))
  }

  // A snapshot that failed is still the one pending.
  predicate Held(log: seq<Event>, pending: Option<Prepared>) {
    log != [] && log[|log| - 1].Sent? && !log[|log| - 1].ok ==> pending == Some(log[|log| - 1].prepared)
  }

  predicate Inv(s: State) {
    && SendsCurrent(s.log) && RetriesUnchanged(s.log) && SendsNews(s.log) && Held(s.log, s.pending)
    && s.last == LastAccepted(s.log, |s.log|)
    && (s.pending.Some? ==>
          Coherent(s.pending.value, s.pending.value.binding) && s.last != Some(Identity(s.pending.value)))
  }

  lemma {:induction false} LastAcceptedKept(log: seq<Event>, e: Event, n: nat)
    requires n <= |log|
    ensures LastAccepted(log + [e], n) == LastAccepted(log, n)
  {
    if n > 0 {
      LastAcceptedKept(log, e, n - 1);
    }
  }

  lemma {:induction false} NewsAfter(log: seq<Event>, e: Event)
    requires SendsNews(log) && (e.Sent? ==> LastAccepted(log, |log|) != Some(Identity(e.prepared)))
    ensures SendsNews(log + [e])
    ensures LastAccepted(log + [e], |log| + 1)
         == if e.Sent? && e.ok then Some(Identity(e.prepared)) else LastAccepted(log, |log|)
  {
    var longer := log + [e];
    forall j | 0 <= j < |longer| && longer[j].Sent?
      ensures LastAccepted(longer, j) != Some(Identity(longer[j].prepared))
    {
      LastAcceptedKept(log, e, j);
    }
    LastAcceptedKept(log, e, |log|);
  }

  lemma {:induction false} RetriesAfter(log: seq<Event>, e: Event, pending: Option<Prepared>)
    requires SendsCurrent(log) && RetriesUnchanged(log) && Held(log, pending)
    requires e.Sent? ==> Coherent(e.prepared, e.current) && pending == Some(e.prepared)
    requires e.Dropped? ==> e.expected != e.found
    ensures SendsCurrent(log + [e]) && RetriesUnchanged(log + [e])
  {
    var longer := log + [e];
    assert forall j | 0 <= j < |log| :: longer[j] == log[j];
  }

  lemma {:induction false} DropKeepsInv(s: State, n: nat, expected: Binding, found: Binding, now: int)
    requires Inv(s) && expected != found
    ensures Inv(Drop(s, n, expected, found, now))
  {
    NewsAfter(s.log, Dropped(n, expected, found));
    RetriesAfter(s.log, Dropped(n, expected, found), s.pending);
  }

  lemma {:induction false} SubmitKeepsInv(s: State, n: nat, turn: Turn)
    requires Inv(s) && s.pending.Some?
    ensures var t := Submit(s, n, turn);
      if Accepts(s.pending.value, turn) then Inv(t.(last := Some(Identity(s.pending.value)), pending := None))
      else Inv(t)
  {
    if turn.current.Some? && Coherent(s.pending.value, turn.current.value) {
      var e := Sent(n, turn.current.value, s.pending.value, turn.accepted && turn.end == Finished);
      NewsAfter(s.log, e);
      RetriesAfter(s.log, e, s.pending);
    }
  }

  lemma {:induction false} DeliverKeepsInv(s: State, n: nat, turn: Turn, binding: Binding)
    requires Inv(s) && s.pending.Some?
    ensures Inv(Deliver(s, n, turn, binding))
  {
    SubmitKeepsInv(s, n, turn);
    var t := Submit(s, n, turn);
    if Inv(t) && turn.wait.Found? && turn.wait.binding != binding {
      DropKeepsInv(t, n, binding, turn.wait.binding, turn.now);
    }
  }

  lemma {:induction false} ProbeKeepsInv(s: State, turn: Turn, binding: Binding)
    requires Inv(s)
    ensures Inv(ProbeDue(s, turn, binding))
  {
    ProbeChangesPending(s, turn, binding);
    PendingMayChange(s, ProbeDue(s, turn, binding));
  }

  lemma {:induction false} ProbeChangesPending(s: State, turn: Turn, binding: Binding)
    ensures var t := ProbeDue(s, turn, binding);
      && t.log == s.log && t.last == s.last
      && (t.pending == s.pending || (s.pending.None? && turn.build.Built? && t.pending == Some(turn.build.snapshot)
                                     && s.last != Some(Identity(turn.build.snapshot))))
  {
  }

  lemma {:induction false} PendingMayChange(s: State, t: State)
    requires Inv(s) && t.log == s.log && t.last == s.last
    requires t.pending == s.pending || (s.pending.None? && t.pending.Some?)
    requires t.pending.Some? ==>
      Coherent(t.pending.value, t.pending.value.binding) && s.last != Some(Identity(t.pending.value))
    ensures Inv(t)
  {
  }

  lemma {:induction false} ReconsiderKeepsInv(s: State, n: nat, turn: Turn, binding: Binding)
    requires Inv(s)
    ensures Inv(Reconsider(s, n, turn, binding))
  {
    if s.pending.Some? && s.pending.value.binding != binding {
      DropKeepsInv(s, n, s.pending.value.binding, binding, turn.now);
    }
  }

  lemma {:induction false} StepKeepsInv(s: State, n: nat, turn: Turn)
    requires Inv(s)
    ensures Inv(Step(s, n, turn))
  {
    if turn.loaded.Some? {
      var binding := turn.loaded.value;
      ReconsiderKeepsInv(s, n, turn, binding);
      var t := Reconsider(s, n, turn, binding);
      ProbeKeepsInv(t, turn, binding);
      if ProbeDue(t, turn, binding).pending.Some? {
        DeliverKeepsInv(ProbeDue(t, turn, binding), n, turn, binding);
      }
    }
  }

  // Events of earlier turns only, or of this one but nothing sent in it yet.
  predicate Before(log: seq<Event>, n: nat) {
    forall j | 0 <= j < |log| :: log[j].turn < n
  }

  predicate NoneSent(log: seq<Event>, n: nat) {
    forall j | 0 <= j < |log| :: if log[j].Sent? then log[j].turn < n else log[j].turn <= n
  }

  lemma {:induction false} TellsNext(log: seq<Event>, e: Event, turns: seq<Turn>)
    requires TellsTurns(log, turns) && TrueTo(e, turns) && Before(log, e.turn + 1)
    requires e.Sent? ==> NoneSent(log, e.turn)
    ensures TellsTurns(log + [e], turns) && Before(log + [e], e.turn + 1)
    ensures e.Dropped? && NoneSent(log, e.turn) ==> NoneSent(log + [e], e.turn)
  {
    var longer := log + [e];
    assert forall j | 0 <= j < |log| :: longer[j] == log[j];
  }

  lemma {:induction false} ReconsiderTells(s: State, n: nat, turns: seq<Turn>, binding: Binding)
    requires n < |turns| && TellsTurns(s.log, turns) && Before(s.log, n) && turns[n].loaded == Some(binding)
    ensures var t := Reconsider(s, n, turns[n], binding);
            TellsTurns(t.log, turns) && Before(t.log, n + 1) && NoneSent(t.log, n)
  {
    if s.pending.Some? && s.pending.value.binding != binding {
      TellsNext(s.log, Dropped(n, s.pending.value.binding, binding), turns);
    }
  }

  lemma {:induction false} DeliverTells(s: State, n: nat, turns: seq<Turn>, binding: Binding)
    requires n < |turns| && TellsTurns(s.log, turns) && Before(s.log, n + 1) && NoneSent(s.log, n)
    requires s.pending.Some? && turns[n].loaded == Some(binding)
    ensures var t := Deliver(s, n, turns[n], binding); TellsTurns(t.log, turns) && Before(t.log, n + 1)
  {
    var turn, t := turns[n], Submit(s, n, turns[n]);
    if t != s {
      TellsNext(s.log, t.log[|s.log|], turns);
    }
    if turn.wait.Found? {
      TellsNext(t.log, Dropped(n, binding, turn.wait.binding), turns);
    }
  }

  // A turn adds at most three events, and at most one of them is a snapshot sent.
  lemma {:induction false} StepTells(s: State, n: nat, turns: seq<Turn>)
    requires n < |turns| && TellsTurns(s.log, turns) && Before(s.log, n)
    ensures TellsTurns(Step(s, n, turns[n]).log, turns) && Before(Step(s, n, turns[n]).log, n + 1)
  {
    var turn := turns[n];
    if turn.loaded.Some? {
      var binding := turn.loaded.value;
      ReconsiderTells(s, n, turns, binding);
      var u := ProbeDue(Reconsider(s, n, turn, binding), turn, binding);
      assert u.log == Reconsider(s, n, turn, binding).log;
      if u.pending.Some? {
        DeliverTells(u, n, turns, binding);
      }
    }
  }

  // A state that keeps all this up to its turn.
  predicate Sound(s: State, turns: seq<Turn>, n: nat) {
    Inv(s) && TellsTurns(s.log, turns) && Before(s.log, n)
  }

  lemma {:induction false} StepIsSound(s: State, turns: seq<Turn>, n: nat, t: State)
    requires n < |turns| && Sound(s, turns, n) && t == Step(s, n, turns[n])
    ensures Sound(t, turns, n + 1)
  {
    StepKeepsInv(s, n, turns[n]);
    StepTells(s, n, turns);
  }

  lemma {:induction false} NextIsSound(turns: seq<Turn>, n: nat)
    requires n < |turns| && Sound(Play(turns, n), turns, n)
    ensures Sound(Play(turns, n + 1), turns, n + 1)
  {
    StepIsSound(Play(turns, n), turns, n, Play(turns, n + 1));
  }

  lemma {:induction false} PlayIsSound(turns: seq<Turn>, n: nat)
    requires n <= |turns|
    ensures Sound(Play(turns, n), turns, n)
  {
    if n > 0 {
      PlayIsSound(turns, n - 1);
      NextIsSound(turns, n - 1);
    }
  }

  // What is pending goes out in the very next turn that finds its binding on disk, both times.
  lemma {:induction false} PendingIsSent(turns: seq<Turn>, n: nat)
    requires n < |turns| && !Play(turns, n).stopped && Play(turns, n).pending.Some?
    requires var b := Some(Play(turns, n).pending.value.binding);
             !turns[n].stop && turns[n].loaded == b && turns[n].current == b
    ensures var p, turn := Play(turns, n).pending.value, turns[n];
            var e := Sent(n, p.binding, p, turn.accepted && turn.end == Finished);
            |Play(turns, n + 1).log| > |Play(turns, n).log| && Play(turns, n + 1).log[|Play(turns, n).log|] == e
  {
    PlayIsSound(turns, n);
  }

  lemma {:induction false} LastIsKnown(turns: seq<Turn>, n: nat)
    requires n <= |turns|
    ensures Play(turns, n).last == LastAccepted(Play(turns, n).log, |Play(turns, n).log|)
    ensures Play(turns, n).pending.Some? ==>
      Coherent(Play(turns, n).pending.value, Play(turns, n).pending.value.binding)
  {
    PlayIsSound(turns, n);
  }

  // The turn is not the last: the worker is up, and a binding is read.
  predicate Loads(turns: seq<Turn>, n: nat, b: Binding)
    requires n < |turns|
  {
    !Play(turns, n).stopped && !turns[n].stop && turns[n].loaded == Some(b)
  }

  // It is time to look: nothing is pending, and nothing was published for this binding or the last look
  // is over long enough.
  predicate TimeToLook(turns: seq<Turn>, n: nat, b: Binding)
    requires n < |turns|
  {
    var s := Play(turns, n);
    s.pending.None? && (turns[n].now >= s.nextProbe || LastAccepted(s.log, |s.log|).None?
                        || LastAccepted(s.log, |s.log|).value.0 != b)
  }

  // What is found when it is time, and is not what was published last, is sent in that very turn.
  lemma {:induction false} ChangeIsSent(turns: seq<Turn>, n: nat, b: Binding, p: Prepared)
    requires n < |turns| && Loads(turns, n, b) && TimeToLook(turns, n, b) && turns[n].current == Some(b)
    requires turns[n].build.Built? && turns[n].build.snapshot == p && p.binding == b
    requires LastAccepted(Play(turns, n).log, |Play(turns, n).log|) != Some((p.binding, p.fingerprint))
    ensures var s, t, turn := Play(turns, n), Play(turns, n + 1), turns[n];
      && |t.log| > |s.log| && t.log[..|s.log|] == s.log
      && t.log[|s.log|] == Sent(n, b, p, turn.accepted && turn.end == Finished)
  {
    LastIsKnown(turns, n);
  }

  // What was published last is not sent again; the next look comes a minute later.
  lemma {:induction false} KnownIsNotSent(turns: seq<Turn>, n: nat, b: Binding, p: Prepared)
    requires n < |turns| && Loads(turns, n, b) && TimeToLook(turns, n, b)
    requires turns[n].build.Built? && turns[n].build.snapshot == p
    requires LastAccepted(Play(turns, n).log, |Play(turns, n).log|) == Some((p.binding, p.fingerprint))
    ensures var s, t := Play(turns, n), Play(turns, n + 1);
      t.log == s.log && t.pending.None? && t.nextProbe == turns[n].now + 60 && t.failures == 0
  {
    LastIsKnown(turns, n);
  }

  // What becomes of what was sent: accepted, it is no longer pending, the next look comes a minute later
  // and failures are forgotten; otherwise it stays pending and one more failure is counted, unless another
  // binding is found while the worker waits, and then it is dropped and looked for at once.
  lemma {:induction false} AnswerDecides(turns: seq<Turn>, n: nat, b: Binding)
    requires n < |turns| && Loads(turns, n, b) && turns[n].current == Some(b) && turns[n].end != ShutdownFirst
    requires Play(turns, n).pending.Some? && Play(turns, n).pending.value.binding == b
    ensures var s, t, turn := Play(turns, n), Play(turns, n + 1), turns[n];
      var left := turn.wait.Found? && turn.wait.binding != b && turn.end == Finished;
      if turn.accepted && turn.end == Finished then
        && t.pending.None? && t.nextProbe == turn.now + 60 && t.failures == 0 && !t.stopped
        && t.last == Some((b, s.pending.value.fingerprint))
      else if left then t.pending.None? && t.failures == 0 && t.nextProbe == turn.now && !t.stopped
      else
        && t.pending == s.pending && t.nextProbe == s.nextProbe
        && t.failures == Min(s.failures + 1, 0xffff_ffff) && (t.stopped <==> turn.wait == ShutDown)
  {
    LastIsKnown(turns, n);
  }

  // A binding that is not the one a pending snapshot was made for drops it, at once and before anything
  // is sent.
  lemma {:induction false} OtherBindingDrops(turns: seq<Turn>, n: nat, b: Binding)
    requires n < |turns| && Loads(turns, n, b)
    requires Play(turns, n).pending.Some? && Play(turns, n).pending.value.binding != b
    ensures var s, t := Play(turns, n), Play(turns, n + 1);
      && |t.log| > |s.log| && t.log[..|s.log|] == s.log
      && t.log[|s.log|] == Dropped(n, s.pending.value.binding, b)
  {
    var r := Reconsider(Play(turns, n), n, turns[n], b);
    var u := ProbeDue(r, turns[n], b);
    assert r.log <= u.log;
    if u.pending.Some? {
      DeliveryAdds(u, n, turns[n], b);
    }
    assert r.log <= Play(turns, n + 1).log;
  }

  lemma {:induction false} DeliveryAdds(s: State, n: nat, turn: Turn, binding: Binding)
    requires s.pending.Some?
    ensures s.log <= Deliver(s, n, turn, binding).log
  {
    assert s.log <= Submit(s, n, turn).log;
  }

  // Where nothing is pending and it is not time, or no binding can be read, nothing happens.
  lemma {:induction false} OtherwiseNothing(turns: seq<Turn>, n: nat)
    requires n < |turns|
    ensures var s, t, turn := Play(turns, n), Play(turns, n + 1), turns[n];
      && (s.stopped || turn.stop ==> t == s.(stopped := true))
      && (!s.stopped && !turn.stop && turn.loaded.None? ==> t == s.(stopped := turn.wait == ShutDown))
      && (turn.loaded.Some? && Loads(turns, n, turn.loaded.value) ==>
            s.pending.None? && !TimeToLook(turns, n, turn.loaded.value) ==> t == s.(stopped := turn.wait == ShutDown))
  {
    LastIsKnown(turns, n);
  }

  // A look that brings nothing counts one more failure, unless another binding is found meanwhile.
  lemma {:induction false} FailedLookCounts(turns: seq<Turn>, n: nat, b: Binding)
    requires n < |turns| && Loads(turns, n, b) && TimeToLook(turns, n, b) && !turns[n].build.Built?
    ensures var s, t, turn := Play(turns, n), Play(turns, n + 1), turns[n];
      && t.log == s.log && t.pending.None? && t.nextProbe == s.nextProbe
      && (turn.build.Interrupted? ==> t.stopped)
      && (!turn.build.Interrupted? ==>
            && (t.stopped <==> turn.wait == ShutDown)
            && t.failures == if turn.wait.Found? && turn.wait.binding != b && turn.build.BuildFailed? then 0
                             else Min(s.failures + 1, 0xffff_ffff))
  {
    LastIsKnown(turns, n);
  }

  // ---------- The loop ----------

  // The second half of a turn, as the loop does it.
  method DeliverPending(s: State, n: nat, turn: Turn, binding: Binding, backoff: RetryBackoff) returns (t: State)
    requires s.pending.Some? && !s.stopped && backoff.failures == s.failures <= U32_MAX
    modifies backoff
    ensures t == Deliver(s, n, turn, binding) && (!t.stopped ==> backoff.failures == t.failures <= U32_MAX)
  {
    var p, log := s.pending.value, s.log;
    var accepted := false;
    if turn.current.Some? && Coherent(p, turn.current.value) {
      accepted := turn.accepted && turn.end == Finished;
      log := log + [Sent(n, turn.current.value, p, accepted)];
    }
    if turn.end.ShutdownFirst? {
      return s.(log := log, stopped := true);
    } else if accepted {
      backoff.Reset();
      return State(Some(Identity(p)), None, turn.now + PROBE_INTERVAL, backoff.failures, log, false);
    }
    var _ := backoff.NextDelay();
    if turn.wait.ShutDown? {
      return s.(failures := backoff.failures, log := log, stopped := true);
    } else if turn.wait.Found? && turn.wait.binding != binding && turn.end.Finished? {
      backoff.Reset();
      log := log + [Dropped(n, binding, turn.wait.binding)];
      return State(s.last, None, turn.now, backoff.failures, log, false);
    }
    t := s.(failures := backoff.failures, log := log);
  }

  // The first half: collect, unless something is pending or it is too early.
  method ProbeIfDue(s: State, turn: Turn, binding: Binding, backoff: RetryBackoff) returns (t: State)
    requires !s.stopped && backoff.failures == s.failures <= U32_MAX
    modifies backoff
    ensures t == ProbeDue(s, turn, binding)
    ensures !t.stopped ==> backoff.failures == t.failures <= U32_MAX
  {
    t := s;
    if s.pending.None? && (s.last.None? || s.last.value.0 != binding || turn.now >= s.nextProbe) {
      if turn.build.Interrupted? {
        return s.(stopped := true);
      }
      if !turn.build.Built? {
        var _ := backoff.NextDelay();
        if turn.wait.ShutDown? {
          return s.(failures := backoff.failures, stopped := true);
        } else if turn.wait.Found? && turn.wait.binding != binding && !turn.build.BuildLost? {
          backoff.Reset();
        }
        t := s.(failures := backoff.failures);
      } else if s.last == Some(Identity(turn.build.snapshot)) {
        backoff.Reset();
        t := s.(nextProbe := turn.now + PROBE_INTERVAL, failures := backoff.failures, stopped := turn.wait.ShutDown?);
      } else {
        t := s.(pending := Some(turn.build.snapshot));
      }
    }
  }

  // One turn of the loop.
  method RunTurn(s: State, n: nat, turn: Turn, backoff: RetryBackoff) returns (t: State)
    requires !s.stopped && backoff.failures == s.failures <= U32_MAX
    modifies backoff
    ensures t == Step(s, n, turn) && (!t.stopped ==> backoff.failures == t.failures <= U32_MAX)
  {
    if turn.stop {
      return s.(stopped := true);
    } else if turn.loaded.None? {
      return s.(stopped := turn.wait.ShutDown?);
    }
    var r, binding := s, turn.loaded.value;
    if s.pending.Some? && s.pending.value.binding != binding {
      backoff.Reset();
      r := State(s.last, None, turn.now, backoff.failures,
                 s.log + [Dropped(n, s.pending.value.binding, binding)], false);
    }
    t := ProbeIfDue(r, turn, binding, backoff);
    if t.stopped {
      return;
    }
    if t.pending.Some? {
      t := DeliverPending(t, n, turn, binding, backoff);
    } else if !WantsProbe(r, turn, binding) {
      t := t.(stopped := turn.wait.ShutDown?);
    }
  }

  method RunTurns(turns: seq<Turn>) returns (s: State)
    ensures s == Play(turns, |turns|)
  {
    s := START;
    var backoff := new RetryBackoff();
    var n := 0;
    while n < |turns| && !s.stopped
      invariant 0 <= n <= |turns| && s == Play(turns, n) && fresh(backoff)
      invariant !s.stopped ==> backoff.failures == s.failures <= U32_MAX
    {
      s := RunTurn(s, n, turns[n], backoff);
      n := n + 1;
    }
    if s.stopped {
      StoppedStays(turns, n, |turns|);
    }
  }

  method RunWorker(turns: seq<Turn>) returns (log: seq<Event>)
    ensures log == Play(turns, |turns|).log
    ensures TellsTurns(log, turns) && SendsCurrent(log) && RetriesUnchanged(log) && SendsNews(log)
  {
    var s := RunTurns(turns);
    PlayIsSound(turns, |turns|);
    log := s.log;
  }

  // ---------- What that comes to ----------

  // The snapshot the publisher would make, whenever it looked.
  function Snapshot(c: Context, devices: seq<Device>): Option<Prepared> {
    Prepare(c, devices, Time([], true))
  }

  // A turn in which session, GPUs and control plane stay as they are, whatever order the GPUs are
  // found in and whenever.
  ghost predicate Steady(t: Turn, c: Context, devices: seq<Device>) {
    && !t.stop && t.loaded == Some(c.binding) && t.current == Some(c.binding)
    && t.accepted && t.end == Finished && t.wait == Elapsed
    && exists found, observed: Time ::
         multiset(found) == multiset(devices) && observed.wellFormed && t.build == Collect(c, found, observed)
  }

  // All that matters of such a turn is what it publishes.
  predicate Publishes(t: Turn, b: Binding, id: Publication) {
    && !t.stop && t.loaded == Some(b) && t.current == Some(b)
    && t.accepted && t.end == Finished && t.wait == Elapsed
    && t.build.Built? && t.build.snapshot.binding == b && Identity(t.build.snapshot) == id
  }

  lemma {:induction false} SteadyPublishes(t: Turn, c: Context, devices: seq<Device>)
    requires Steady(t, c, devices) && Snapshot(c, devices).Some?
    ensures Publishes(t, c.binding, Identity(Snapshot(c, devices).value))
  {
    var found, observed: Time :|
      multiset(found) == multiset(devices) && observed.wellFormed && t.build == Collect(c, found, observed);
    SameFingerprint(c, devices, found, Time([], true), observed);
  }

  lemma {:induction false} SamePublishesOnce(turns: seq<Turn>, n: nat, b: Binding, id: Publication)
    requires 0 < n <= |turns| && forall i | 0 <= i < |turns| :: Publishes(turns[i], b, id)
    ensures var s := Play(turns, n);
      && |s.log| == 1 && s.log[0].Sent? && s.log[0].turn == 0 && s.log[0].ok && Identity(s.log[0].prepared) == id
      && s.last == Some(id) && s.pending.None? && !s.stopped
  {
    assert Publishes(turns[n - 1], b, id);
    if n > 1 {
      SamePublishesOnce(turns, n - 1, b, id);
    } else {
      assert Play(turns, 0) == START;
    }
  }

  // While nothing changes the GPUs are published in the first turn and never again, in whatever
  // order they are found.
  lemma {:induction false} SteadyPublishesOnce(turns: seq<Turn>, n: nat, c: Context, devices: seq<Device>)
    requires 0 < n <= |turns| && Snapshot(c, devices).Some?
    requires forall i | 0 <= i < |turns| :: Steady(turns[i], c, devices)
    ensures var log := Play(turns, n).log;
      && |log| == 1 && log[0].Sent? && log[0].turn == 0 && log[0].ok
      && Identity(log[0].prepared) == Identity(Snapshot(c, devices).value)
  {
    forall i | 0 <= i < |turns| ensures Publishes(turns[i], c.binding, Identity(Snapshot(c, devices).value)) {
      SteadyPublishes(turns[i], c, devices);
    }
    SamePublishesOnce(turns, n, c.binding, Identity(Snapshot(c, devices).value));
  }

  // Two publications accepted one after the other differ.
  lemma {:induction false} AdjacentPublicationsDiffer(log: seq<Event>, i: nat, j: nat)
    requires SendsNews(log) && i < j < |log|
    requires log[i].Sent? && log[i].ok && log[j].Sent? && log[j].ok
    requires forall k | i < k < j :: !(log[k].Sent? && log[k].ok)
    ensures Identity(log[i].prepared) != Identity(log[j].prepared)
  {
    NothingAcceptedBetween(log, i, j);
  }

  lemma {:induction false} NothingAcceptedBetween(log: seq<Event>, i: nat, j: nat)
    requires i < j <= |log| && log[i].Sent? && log[i].ok
    requires forall k | i < k < j :: !(log[k].Sent? && log[k].ok)
    ensures LastAccepted(log, j) == Some(Identity(log[i].prepared))
    decreases j
  {
    if i + 1 < j {
      NothingAcceptedBetween(log, i, j - 1);
    }
  }

  // A snapshot sent until it is accepted is one and the same, however often.
  lemma {:induction false} RetriedUntilAccepted(log: seq<Event>, i: nat, j: nat)
    requires RetriesUnchanged(log) && i <= j < |log|
    requires forall k | i <= k <= j :: log[k].Sent?
    requires forall k | i <= k < j :: !log[k].ok
    ensures log[j].prepared == log[i].prepared
    decreases j
  {
    if i < j {
      RetriedUntilAccepted(log, i, j - 1);
    }
  }
}
