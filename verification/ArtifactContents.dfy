/**
 * What the artifact store accepts, said by bytes and media type names: which declarations are read how, which
 * bytes prove a type, and exactly when a payload is stored and charged.
 */
module ArtifactContents {
  import opened Messages
  import opened ArtifactStore

  // ----- Media types -----

  predicate AllBlank(s: string) { forall k :: 0 <= k < |s| ==> s[k] in {' ', '\t', '\n', '\r'} }

  predicate Without(s: string, c: char) { forall k :: 0 <= k < |s| ==> s[k] != c }

  predicate Tight(s: string) { s != "" ==> !AllBlank(s[..1]) && !AllBlank(s[|s| - 1..]) }

  /** `low` is `s` with its capital letters made small. */
  predicate Lowers(s: string, low: string) {
    && |s| == |low|
    && forall k :: 0 <= k < |s| ==> if 'A' <= s[k] <= 'Z' then low[k] as int == s[k] as int + 32 else low[k] == s[k]
  }

  predicate ReadsAs(text: string, before: string, core: string, behind: string, parameters: string, name: string) {
    && text == before + core + behind + parameters
    && AllBlank(before) && Tight(core) && AllBlank(behind) && Without(before + core + behind, ';')
    && (parameters == "" || parameters[0] == ';')
    && Lowers(core, name)
  }

  /** The media type that a declaration names: its parameters are cut off, then white space, and case does not matter. */
  ghost predicate Names(text: string, name: string) {
    exists before, core, behind, parameters :: ReadsAs(text, before, core, behind, parameters, name)
  }

  lemma {:induction false} UpToSplits(s: string, c: char)
    ensures UpTo(s, c) <= s && Without(UpTo(s, c), c)
    ensures |UpTo(s, c)| < |s| ==> s[|UpTo(s, c)|] == c
  {
    if s != "" && s[0] != c {
      UpToSplits(s[1..], c);
    }
  }

  lemma {:induction false} StripLeftSplits(s: string) returns (before: string)
    ensures AllBlank(before) && s == before + StripLeft(s) && (StripLeft(s) != "" ==> !AllBlank(StripLeft(s)[..1]))
  {
    if s != "" && Blank(s[0]) {
      var rest := StripLeftSplits(s[1..]);
      before := [s[0]] + rest;
      assert s == [s[0]] + s[1..];
    } else {
      before := "";
      assert s != "" ==> s[..1][0] == s[0];
    }
  }

  lemma {:induction false} StripRightSplits(s: string) returns (behind: string)
    ensures AllBlank(behind) && s == StripRight(s) + behind
    ensures StripRight(s) != "" ==> !AllBlank(StripRight(s)[|StripRight(s)| - 1..])
  {
    if s != "" && Blank(s[|s| - 1]) {
      var rest := StripRightSplits(s[..|s| - 1]);
      behind := rest + [s[|s| - 1]];
      assert s == s[..|s| - 1] + [s[|s| - 1]];
    } else {
      behind := "";
      assert s != "" ==> s[|s| - 1..][0] == s[|s| - 1];
    }
  }

  function Text(declared: Option<string>): string {
    if declared.Some? && declared.value != "" then declared.value else "application/octet-stream"
  }

  lemma HeadParts(text: string) returns (head: string, parameters: string)
    ensures head == UpTo(text, ';') && text == head + parameters && Without(head, ';')
    ensures parameters == "" || parameters[0] == ';'
  {
    UpToSplits(text, ';');
    head := UpTo(text, ';');
    parameters := text[|head|..];
  }

  lemma CoreParts(head: string) returns (before: string, core: string, behind: string)
    ensures core == StripRight(StripLeft(head)) && head == before + core + behind
    ensures AllBlank(before) && Tight(core) && AllBlank(behind)
  {
    before := StripLeftSplits(head);
    behind := StripRightSplits(StripLeft(head));
    core := StripRight(StripLeft(head));
    assert before + (core + behind) == before + core + behind;
    TightCore(StripLeft(head), core, behind);
  }

  /** How a declaration is read; an empty or missing one stands for octets. */
  lemma NormalizedNames(declared: Option<string>)
    ensures Names(Text(declared), Normalized(declared))
  {
    var head, parameters := HeadParts(Text(declared));
    var before, core, behind := CoreParts(head);
    LowerLowers(core);
    assert ReadsAs(Text(declared), before, core, behind, parameters, Lower(core));
  }

  lemma TightCore(s: string, core: string, behind: string)
    requires s == core + behind && (s != "" ==> !AllBlank(s[..1])) && (core != "" ==> !AllBlank(core[|core| - 1..]))
    ensures Tight(core)
  {
    assert core != "" ==> core[..1] == s[..1];
  }

  lemma LowerLowers(s: string)
    ensures Lowers(s, Lower(s))
  {
  }

  // ----- Signatures -----

  predicate Begins(data: seq<Byte>, bytes: seq<Byte>) { bytes <= data }

  /** What the first bytes of a file of this type look like. */
  predicate HasSignature(name: string, data: seq<Byte>) {
    || (name == "image/png" && Begins(data, [137, 80, 78, 71, 13, 10, 26, 10]))
    || (name == "image/jpeg" && Begins(data, [255, 216, 255]))
    || (name == "image/gif" && Begins(data, [71, 73, 70, 56]))
    || (name == "audio/wav" && Begins(data, [82, 73, 70, 70]) && |data| >= 12 && data[8..12] == [87, 65, 86, 69])
    || (name == "image/webp" && Begins(data, [82, 73, 70, 70]) && |data| >= 12 && data[8..12] == [87, 69, 66, 80])
    || (name == "audio/ogg" && Begins(data, [79, 103, 103, 83]))
    || (name == "audio/mpeg" && Begins(data, [73, 68, 51]))
    || (name == "audio/mpeg" && |data| >= 2 && data[0] == 255 && data[1] >= 224)
  }

  predicate Textual(name: string) { name == "application/json" || name == "text/plain" }

  predicate ImageOrAudio(name: string) {
    || name == "image/png" || name == "image/jpeg" || name == "image/gif" || name == "image/webp"
    || name == "audio/mpeg" || name == "audio/wav" || name == "audio/ogg"
  }

  lemma BeginsAt(data: seq<Byte>, bytes: seq<Byte>)
    ensures At(data, 0, bytes) <==> Begins(data, bytes)
  {
  }

  lemma FirstByte(data: seq<Byte>, bytes: seq<Byte>)
    requires bytes != [] && Begins(data, bytes)
    ensures data != [] && data[0] == bytes[0] && (|bytes| > 1 ==> |data| > 1 && data[1] == bytes[1])
  {
  }

  /** A type is recognised exactly when its signature is there; no bytes have the signatures of two types. */
  lemma SniffExactly(m: Mime, data: seq<Byte>)
    requires Media(m)
    ensures Sniff(data) == Some(m) <==> HasSignature(MimeName(m), data)
  {
    SignatureFirst(data);
    BeginsAt(data, [0x89, 0x50, 0x4E, 0x47, 0x0D, 0x0A, 0x1A, 0x0A]);
    BeginsAt(data, [0xFF, 0xD8, 0xFF]);
    BeginsAt(data, [0x47, 0x49, 0x46, 0x38]);
    BeginsAt(data, [0x52, 0x49, 0x46, 0x46]);
    BeginsAt(data, [0x4F, 0x67, 0x67, 0x53]);
    BeginsAt(data, [0x49, 0x44, 0x33]);
  }

  lemma SignatureFirst(data: seq<Byte>)
    ensures Begins(data, [137, 80, 78, 71, 13, 10, 26, 10]) ==> data[0] == 137
    ensures Begins(data, [255, 216, 255]) ==> data[0] == 255 && data[1] == 216
    ensures Begins(data, [71, 73, 70, 56]) ==> data[0] == 71
    ensures Begins(data, [82, 73, 70, 70]) ==> data[0] == 82
    ensures Begins(data, [79, 103, 103, 83]) ==> data[0] == 79
    ensures Begins(data, [73, 68, 51]) ==> data[0] == 73
  {
  }

  // ----- What is stored -----

  /** The declaration names a type that is allowed and that the bytes do not belie. */
  predicate TypeFits(name: string, data: seq<Byte>) { Textual(name) || (ImageOrAudio(name) && HasSignature(name, data)) }

  lemma AllowedNames(name: string)
    requires Allowed(name).Some?
    ensures MimeName(Allowed(name).value) == name
    ensures Media(Allowed(name).value) <==> ImageOrAudio(name)
    ensures !Media(Allowed(name).value) <==> Textual(name)
  {
  }

  /** The payload is under its type in the directory. */
  ghost predicate Present(s: State, name: string, data: seq<Byte>) {
    exists a :: a in s.disk.files && a.data == data && MimeName(a.mime) == name
  }

  /** What the verdict on a payload depends on. */
  datatype Facts = Facts(known: bool, genuine: bool, present: bool)

  lemma FactsOf(s: State, data: seq<Byte>, declared: Option<string>) returns (name: string, f: Facts)
    ensures name == Normalized(declared) && Names(Text(declared), name)
    ensures f.known <==> Textual(name) || ImageOrAudio(name)
    ensures f.known ==> (f.genuine <==> ImageOrAudio(name) ==> HasSignature(name, data)) && (TypeFits(name, data) <==> f.genuine)
    ensures f.present <==> Present(s, name, data)
    ensures f.known <==> Allowed(name).Some?
    ensures f.known ==> var m := Allowed(name).value;
                        && MimeName(m) == name
                        && (f.genuine <==> Media(m) ==> Sniff(data) == Some(m)) && (f.present <==> Artifact(data, m) in s.disk.files)
  {
    NormalizedNames(declared);
    name := Normalized(declared);
    f := Facts(Textual(name) || ImageOrAudio(name), ImageOrAudio(name) ==> HasSignature(name, data), Present(s, name, data));
    if Allowed(name).Some? {
      AllowedNames(name);
      PresentExactly(s, Allowed(name).value, data);
      if ImageOrAudio(name) {
        SniffExactly(Allowed(name).value, data);
      }
    }
  }

  function Verdict(s: State, data: seq<Byte>, turn: string, mime: Option<Mime>, f: Facts): Result {
    if mime.None? then TypeRefused
    else if !f.genuine then TypeConflict
    else if |data| > s.limits.item then ItemTooLarge
    else if f.present then Stored(Artifact(data, mime.value))
    else if TurnUsage(s, turn) + |data| > s.limits.turn then TurnQuota
    else if s.thread + |data| > s.limits.thread then ThreadQuota
    else Stored(Artifact(data, mime.value))
  }

  lemma PutBy(s: State, data: seq<Byte>, declared: Option<string>, turn: string, mime: Option<Mime>, f: Facts)
    requires mime == Allowed(Normalized(declared))
    requires mime.Some? ==> (f.genuine <==> Media(mime.value) ==> Sniff(data) == Some(mime.value))
                            && (f.present <==> Artifact(data, mime.value) in s.disk.files)
    ensures var p, v := PutBytes(s, data, declared, turn, NoFault), Verdict(s, data, turn, mime, f);
            && p.result == v
            && p.state == if v.Stored? && !f.present
                          then State(s.limits, s.disk.(files := s.disk.files + {v.artifact}),
                                     s.turns[turn := TurnUsage(s, turn) + |data|], s.thread + |data|)
                          else s
  {
    assert Check(s, data, declared, turn) == Verdict(s, data, turn, mime, f);
  }

  /**
   * One undisturbed store, for every state and every input: it succeeds exactly when the declared type is allowed
   * and not belied by the bytes, the item is small enough, and either the payload is already there or both quotas
   * have room for it. Then the reference names those bytes and that type and the payload is on disk; it is charged to
   * its turn and to the thread exactly when it was not there before; and nothing else changes.
   */
  lemma StoredExactlyWhen(s: State, data: seq<Byte>, declared: Option<string>, turn: string) returns (name: string)
    ensures Names(Text(declared), name)
    ensures var p := PutBytes(s, data, declared, turn, NoFault);
            var room := TurnUsage(s, turn) + |data| <= s.limits.turn && s.thread + |data| <= s.limits.thread;
            && (p.result.Stored? <==> TypeFits(name, data) && |data| <= s.limits.item && (Present(s, name, data) || room))
            && (p.result.Stored? ==> p.result.artifact.data == data && MimeName(p.result.artifact.mime) == name)
            && (p.result.Stored? && !Present(s, name, data) ==>
                  && p.state == State(s.limits, s.disk.(files := s.disk.files + {p.result.artifact}),
                                      s.turns[turn := TurnUsage(s, turn) + |data|], s.thread + |data|))
            && (!p.result.Stored? || Present(s, name, data) ==> p.state == s)
  {
    var f: Facts;
    name, f := FactsOf(s, data, declared);
    PutBy(s, data, declared, turn, Allowed(name), f);
  }

  /** Why a payload is refused, for every refusal, in order of precedence; a refused payload leaves the store as it was. */
  lemma RefusedExactlyBy(s: State, data: seq<Byte>, declared: Option<string>, turn: string) returns (name: string)
    ensures Names(Text(declared), name)
    ensures var p := PutBytes(s, data, declared, turn, NoFault);
            && (p.result == TypeRefused <==> !Textual(name) && !ImageOrAudio(name))
            && (p.result == TypeConflict <==> ImageOrAudio(name) && !HasSignature(name, data))
            && (p.result == ItemTooLarge <==> TypeFits(name, data) && |data| > s.limits.item)
            && (p.result == TurnQuota <==> TypeFits(name, data) && |data| <= s.limits.item && !Present(s, name, data)
                                           && TurnUsage(s, turn) + |data| > s.limits.turn)
            && (p.result == ThreadQuota <==> TypeFits(name, data) && |data| <= s.limits.item && !Present(s, name, data)
                                             && TurnUsage(s, turn) + |data| <= s.limits.turn && s.thread + |data| > s.limits.thread)
            && (!p.result.Stored? ==> p.state == s)
  {
    var f: Facts;
    name, f := FactsOf(s, data, declared);
    PutBy(s, data, declared, turn, Allowed(name), f);
  }

  lemma PresentExactly(s: State, m: Mime, data: seq<Byte>)
    ensures Present(s, MimeName(m), data) <==> Artifact(data, m) in s.disk.files
  {
    if Present(s, MimeName(m), data) {
      var a :| a in s.disk.files && a.data == data && MimeName(a.mime) == MimeName(m);
      assert a.mime == m;
    }
  }

  /** Every image or audio file of a store opened on such files has the bytes its type requires, after any run. */
  lemma MediaAreGenuine(s: State, events: seq<Event>)
    requires forall a :: a in s.disk.files && ImageOrAudio(MimeName(a.mime)) ==> HasSignature(MimeName(a.mime), a.data)
    ensures forall a :: a in Run(s, events).disk.files && ImageOrAudio(MimeName(a.mime)) ==> HasSignature(MimeName(a.mime), a.data)
  {
    forall a | a in s.disk.files && Media(a.mime)
      ensures Sniff(a.data) == Some(a.mime)
    {
      SniffExactly(a.mime, a.data);
    }
    OnlyGenuineMedia(s, events);
    forall a | a in Run(s, events).disk.files && ImageOrAudio(MimeName(a.mime))
      ensures HasSignature(MimeName(a.mime), a.data)
    {
      SniffExactly(a.mime, a.data);
    }
  }
}
