/** Quota accounting of the artifact directory (artifacts/store.py), with writes that may fail at any of their steps. */
module ArtifactStore {
  import opened Messages

  type Byte = b: int | 0 <= b < 256

  datatype Mime = Json | Plain | Png | Jpeg | Gif | Webp | Mp3 | Wav | Ogg

  function MimeName(m: Mime): string {
    match m
    case Json => "application/json"
    case Plain => "text/plain"
    case Png => "image/png"
    case Jpeg => "image/jpeg"
    case Gif => "image/gif"
    case Webp => "image/webp"
    case Mp3 => "audio/mpeg"
    case Wav => "audio/wav"
    case Ogg => "audio/ogg"
  }

  function Allowed(name: string): Option<Mime> {
    if name == "application/json" then Some(Json)
    else if name == "text/plain" then Some(Plain)
    else if name == "image/png" then Some(Png)
    else if name == "image/jpeg" then Some(Jpeg)
    else if name == "image/gif" then Some(Gif)
    else if name == "image/webp" then Some(Webp)
    else if name == "audio/mpeg" then Some(Mp3)
    else if name == "audio/wav" then Some(Wav)
    else if name == "audio/ogg" then Some(Ogg)
    else None
  }

  predicate Media(m: Mime) { m !in {Json, Plain} }

  // ----- Declared and recognised types -----

  function UpTo(s: string, c: char): string {
    if s == "" || s[0] == c then "" else [s[0]] + UpTo(s[1..], c)
  }

  predicate Blank(c: char) { c in {' ', '\t', '\n', '\r'} }

  function StripLeft(s: string): string { if s != "" && Blank(s[0]) then StripLeft(s[1..]) else s }

  function StripRight(s: string): string { if s != "" && Blank(s[|s| - 1]) then StripRight(s[..|s| - 1]) else s }

  function Lower(s: string): (r: string)
    ensures |r| == |s|
  {
    seq(|s|, k requires 0 <= k < |s| => if 'A' <= s[k] <= 'Z' then (s[k] as int + 32) as char else s[k])
  }

  /** The media type without its parameters, in lower case; nothing declared means octets. */
  function Normalized(declared: Option<string>): string {
    var name := if declared.Some? && declared.value != "" then declared.value else "application/octet-stream";
    Lower(StripRight(StripLeft(UpTo(name, ';'))))
  }

  predicate At(data: seq<Byte>, at: nat, signature: seq<Byte>) {
    at + |signature| <= |data| && data[at..at + |signature|] == signature
  }

  /** The image or audio type a signature proves. */
  function Sniff(data: seq<Byte>): Option<Mime> {
    if At(data, 0, [0x89, 0x50, 0x4E, 0x47, 0x0D, 0x0A, 0x1A, 0x0A]) then Some(Png)
    else if At(data, 0, [0xFF, 0xD8, 0xFF]) then Some(Jpeg)
    else if At(data, 0, [0x47, 0x49, 0x46, 0x38]) then Some(Gif)
    else if At(data, 0, [0x52, 0x49, 0x46, 0x46]) && At(data, 8, [0x57, 0x41, 0x56, 0x45]) then Some(Wav)
    else if At(data, 0, [0x52, 0x49, 0x46, 0x46]) && At(data, 8, [0x57, 0x45, 0x42, 0x50]) then Some(Webp)
    else if At(data, 0, [0x4F, 0x67, 0x67, 0x53]) then Some(Ogg)
    else if At(data, 0, [0x49, 0x44, 0x33]) then Some(Mp3)
    else if |data| >= 2 && data[0] == 0xFF && data[1] >= 0xE0 then Some(Mp3)
    else None
  }

  // ----- The store -----

  /** A payload file: its name is the digest of its bytes and the extension of its type. */
  datatype Artifact = Artifact(data: seq<Byte>, mime: Mime)

  datatype Limits = Limits(item: nat, turn: nat, thread: nat)

  /** `strays` are the bytes of temporary files a killed process left behind. */
  datatype Disk = Disk(files: set<Artifact>, strays: nat)

  datatype State = State(limits: Limits, disk: Disk, turns: map<string, nat>, thread: nat)

  /**
   * Where a write may fail: nowhere, at the payload, at the metadata once the payload is in place, or with the
   * process, which is killed in front of one of the two renames and leaves a part of its temporary file.
   */
  datatype Fault = NoFault | PayloadFault | MetadataFault | KilledAtPayload(partial: nat) | KilledAtMetadata(partial: nat)

  datatype Result = Stored(artifact: Artifact) | TypeRefused | TypeConflict | ItemTooLarge | TurnQuota | ThreadQuota | WriteFailed

  function TurnUsage(s: State, turn: string): nat { if turn in s.turns then s.turns[turn] else 0 }

  /** The verdict before anything is written; None lets the write go ahead. */
  function Check(s: State, data: seq<Byte>, declared: Option<string>, turn: string): Result {
    match Allowed(Normalized(declared))
    case None => TypeRefused
    case Some(mime) =>
      if Media(mime) && Sniff(data) != Some(mime) then TypeConflict
      else if |data| > s.limits.item then ItemTooLarge
      else if Artifact(data, mime) in s.disk.files then Stored(Artifact(data, mime))
      else if TurnUsage(s, turn) + |data| > s.limits.turn then TurnQuota
      else if s.thread + |data| > s.limits.thread then ThreadQuota
      else Stored(Artifact(data, mime))
  }

  predicate Writes(s: State, data: seq<Byte>, declared: Option<string>, turn: string) {
    var r := Check(s, data, declared, turn); r.Stored? && r.artifact !in s.disk.files
  }

  datatype Put = Put(state: State, result: Result)

  function PutBytes(s: State, data: seq<Byte>, declared: Option<string>, turn: string, fault: Fault): Put {
    var r := Check(s, data, declared, turn);
    if !Writes(s, data, declared, turn) then Put(s, r)
    else
      var placed := s.disk.(files := s.disk.files + {r.artifact});
      match fault
      case NoFault => Put(s.(disk := placed, turns := s.turns[turn := TurnUsage(s, turn) + |data|], thread := s.thread + |data|), r)
      case PayloadFault => Put(s, WriteFailed)
      case MetadataFault => Put(s.(disk := placed), WriteFailed)
      case KilledAtPayload(partial) => Put(s.(disk := s.disk.(strays := s.disk.strays + partial)), WriteFailed)
      case KilledAtMetadata(partial) => Put(s.(disk := placed.(strays := placed.strays + partial)), WriteFailed)
  }

  ghost function Total(files: set<Artifact>): nat
    decreases |files|
  {
    if files == {} then 0
    else
      var a :| a in files;
      |a.data| + Total(files - {a})
  }

  /** Everything the directory holds apart from metadata. */
  ghost function DiskUsage(d: Disk): nat { Total(d.files) + d.strays }

  lemma {:induction false} TotalRemove(files: set<Artifact>, k: Artifact)
    requires k in files
    ensures Total(files) == |k.data| + Total(files - {k})
    decreases |files|
  {
    var a :| a in files && Total(files) == |a.data| + Total(files - {a});
    if a != k {
      TotalRemove(files - {a}, k);
      TotalRemove(files - {k}, a);
      assert files - {a} - {k} == files - {k} - {a};
    }
  }

  lemma TotalAdd(files: set<Artifact>, k: Artifact)
    requires k !in files
    ensures Total(files + {k}) == Total(files) + |k.data|
  {
    TotalRemove(files + {k}, k);
    assert files + {k} - {k} == files;
  }

  // ----- The object -----

  class ArtifactStore {
    const limits: Limits
    var disk: Disk
    var turnUsage: map<string, nat>
    var threadUsage: nat

    function View(): State
      reads this
    {
      State(limits, disk, turnUsage, threadUsage)
    }

    /** Opening adds up what the directory already holds. */
    constructor (limits: Limits, disk: Disk)
      ensures View() == State(limits, disk, map[], DiskUsage(disk))
    {
      this.limits, this.disk := limits, disk;
      turnUsage, threadUsage := map[], 0;
      new;
      var total := Measure(disk);
      threadUsage := total;
    }

    static method Measure(disk: Disk) returns (total: nat)
      ensures total == DiskUsage(disk)
    {
      total := disk.strays;
      var rest := disk.files;
      while rest != {}
        invariant total + Total(rest) == DiskUsage(disk)
        decreases |rest|
      {
        var a :| a in rest;
        TotalRemove(rest, a);
        total := total + |a.data|;
        rest := rest - {a};
      }
    }

    method ValidatedMime(data: seq<Byte>, declared: Option<string>) returns (r: Result, mime: Mime)
      ensures match Allowed(Normalized(declared)) {
                case None => r == TypeRefused
                case Some(m) => mime == m && if Media(m) && Sniff(data) != Some(m) then r == TypeConflict else r == Stored(Artifact(data, m))
              }
    {
      var allowed := Allowed(Normalized(declared));
      if allowed.None? {
        return TypeRefused, Json;
      }
      mime := allowed.value;
      if Media(mime) && Sniff(data) != Some(mime) {
        return TypeConflict, mime;
      }
      return Stored(Artifact(data, mime)), mime;
    }

    method Store(data: seq<Byte>, declared: Option<string>, turn: string, fault: Fault) returns (r: Result)
      modifies this
      ensures View() == PutBytes(old(View()), data, declared, turn, fault).state
      ensures r == PutBytes(old(View()), data, declared, turn, fault).result
    {
      var mime: Mime;
      r, mime := ValidatedMime(data, declared);
      if !r.Stored? {
        return;
      }
      if |data| > limits.item {
        return ItemTooLarge;
      }
      var artifact := Artifact(data, mime);
      if artifact in disk.files {
        return Stored(artifact);
      }
      var turnTotal := if turn in turnUsage then turnUsage[turn] else 0;
      if turnTotal + |data| > limits.turn {
        return TurnQuota;
      }
      if threadUsage + |data| > limits.thread {
        return ThreadQuota;
      }
      if fault.PayloadFault? {
        return WriteFailed;
      }
      if fault.KilledAtPayload? {
        disk := disk.(strays := disk.strays + fault.partial);
        return WriteFailed;
      }
      disk := disk.(files := disk.files + {artifact});
      if fault.KilledAtMetadata? {
        disk := disk.(strays := disk.strays + fault.partial);
        return WriteFailed;
      }
      if fault.MetadataFault? {
        return WriteFailed;
      }
      turnUsage := turnUsage[turn := turnTotal + |data|];
      threadUsage := threadUsage + |data|;
      return Stored(artifact);
    }
  }

  // ----- Accounting -----

  datatype Event =
    | Give(data: seq<Byte>, declared: Option<string>, turn: string, fault: Fault)
    | Reopen

  ghost function Step(s: State, e: Event): State {
    match e
    case Give(data, declared, turn, fault) => PutBytes(s, data, declared, turn, fault).state
    case Reopen => State(s.limits, s.disk, map[], DiskUsage(s.disk))
  }

  ghost function Run(s: State, events: seq<Event>): State {
    if events == [] then s else Step(Run(s, events[..|events| - 1]), events[|events| - 1])
  }

  /** Bytes that one event puts on disk without counting them. */
  ghost function Uncounted(s: State, e: Event): nat {
    if e.Give? && Writes(s, e.data, e.declared, e.turn)
    then (match e.fault
          case MetadataFault => |e.data|
          case KilledAtPayload(partial) => partial
          case KilledAtMetadata(partial) => |e.data| + partial
          case _ => 0)
    else 0
  }

  /** All of them since the store was last opened. */
  ghost function Drift(s: State, events: seq<Event>): nat {
    if events == [] then 0
    else if events[|events| - 1].Reopen? then 0
    else Drift(s, events[..|events| - 1]) + Uncounted(Run(s, events[..|events| - 1]), events[|events| - 1])
  }

  /**
   * Over any sequential run the counter plus the drift is what the directory holds. So the counter agrees
   * with the directory exactly as long as no write has failed between its payload and its metadata, or left
   * bytes behind with its process, since the store was opened; opening it again always makes them agree.
   */
  lemma {:induction false} CounterAgrees(s: State, events: seq<Event>)
    requires s.thread == DiskUsage(s.disk)
    ensures var t := Run(s, events);
            && t.thread + Drift(s, events) == DiskUsage(t.disk)
            && (t.thread == DiskUsage(t.disk) <==> Drift(s, events) == 0)
  {
    if events != [] {
      var n := |events| - 1;
      CounterAgrees(s, events[..n]);
      CounterStep(Run(s, events[..n]), events[n], Drift(s, events[..n]));
    }
  }

  lemma CounterStep(s: State, e: Event, drift: nat)
    requires s.thread + drift == DiskUsage(s.disk)
    ensures var t := Step(s, e);
            t.thread + (if e.Reopen? then 0 else drift + Uncounted(s, e)) == DiskUsage(t.disk)
  {
    if e.Give? && Writes(s, e.data, e.declared, e.turn) {
      TotalAdd(s.disk.files, Check(s, e.data, e.declared, e.turn).artifact);
    }
  }

  ghost predicate WithinQuotas(s: State) {
    s.thread <= s.limits.thread && forall t :: t in s.turns ==> s.turns[t] <= s.limits.turn
  }

  lemma PutWithinQuotas(s: State, data: seq<Byte>, declared: Option<string>, turn: string, fault: Fault)
    requires WithinQuotas(s)
    ensures var t := PutBytes(s, data, declared, turn, fault).state; WithinQuotas(t) && t.limits == s.limits
  {
  }

  /** A store opened within its thread quota stays within it, and so does every turn within its own. */
  lemma {:induction false} QuotasHold(s: State, events: seq<Event>)
    requires WithinQuotas(s) && Reopen !in events
    ensures WithinQuotas(Run(s, events)) && Run(s, events).limits == s.limits
  {
    if events != [] {
      var n := |events| - 1;
      assert events[n] in events && forall e :: e in events[..n] ==> e in events;
      QuotasHold(s, events[..n]);
      var e := events[n];
      PutWithinQuotas(Run(s, events[..n]), e.data, e.declared, e.turn, e.fault);
    }
  }

  /** Storing the same bytes under the same type again succeeds and changes nothing, whatever the quotas and the turn. */
  lemma StoredAgain(s: State, data: seq<Byte>, declared: Option<string>, turn: string, later: seq<Event>,
                    turn2: string, fault: Fault)
    requires PutBytes(s, data, declared, turn, NoFault).result.Stored?
    ensures var first := PutBytes(s, data, declared, turn, NoFault);
            var t := Run(first.state, later);
            PutBytes(t, data, declared, turn2, fault) == Put(t, first.result)
  {
    var first := PutBytes(s, data, declared, turn, NoFault);
    FilesStay(first.state, later);
    KeepsLimits(first.state, later);
  }

  lemma {:induction false} FilesStay(s: State, events: seq<Event>)
    ensures s.disk.files <= Run(s, events).disk.files
  {
    if events != [] {
      FilesStay(s, events[..|events| - 1]);
    }
  }

  lemma {:induction false} KeepsLimits(s: State, events: seq<Event>)
    ensures Run(s, events).limits == s.limits
  {
    if events != [] {
      KeepsLimits(s, events[..|events| - 1]);
    }
  }

  /** What is on disk as an image or as audio carries the signature of its type, whatever the server declared. */
  ghost predicate Genuine(s: State) {
    forall a :: a in s.disk.files && Media(a.mime) ==> Sniff(a.data) == Some(a.mime)
  }

  lemma {:induction false} OnlyGenuineMedia(s: State, events: seq<Event>)
    requires Genuine(s)
    ensures Genuine(Run(s, events))
  {
    if events != [] {
      OnlyGenuineMedia(s, events[..|events| - 1]);
    }
  }
}
