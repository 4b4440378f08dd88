/** Provider reasoning artifacts: which of them may be replayed to whom. */
module Artifacts {
  import opened Common
  import opened Protocol
  import opened Text

  datatype IntegrityError = ReasoningIntegrityError(provider: string, droppedCount: int)

  /** The vendor a provider name stands for; `lower` is lower-casing. */
  function Normalise(lower: string -> string, provider: string): string {
    var vendor := lower(Common.Before(provider, '/'));
    if vendor == "vertex" || vendor == "google-vertex" then "google" else vendor
  }

  predicate SameProvider(lower: string -> string, a: string, b: string) {
    Normalise(lower, a) == Normalise(lower, b)
  }

  predicate IsForeign(lower: string -> string, target: string, p: Part) {
    p.ReasoningPart? && !SameProvider(lower, p.provider, target)
  }

  /** A signed reasoning part of the target's own. */
  predicate IsOwnSignature(lower: string -> string, target: string, p: Part) {
    p.ReasoningPart? && SameProvider(lower, p.provider, target) && Truthy(p.signature)
  }

  function KeptParts(lower: string -> string, target: string, parts: seq<Part>): (r: seq<Part>)
    ensures |r| <= |parts|
  {
    if parts == [] then []
    else (if IsForeign(lower, target, parts[0]) then [] else [parts[0]]) + KeptParts(lower, target, parts[1..])
  }

  function StrippedMessage(lower: string -> string, target: string, m: Message): Message {
    m.(parts := KeptParts(lower, target, m.parts))
  }

  function Stripped(lower: string -> string, target: string, ms: seq<Message>): (r: seq<Message>)
    ensures |r| == |ms|
    ensures forall i :: 0 <= i < |ms| ==> r[i] == StrippedMessage(lower, target, ms[i])
  {
    MapSeq(m => StrippedMessage(lower, target, m), ms)
  }

  function OwnSignatures(lower: string -> string, target: string): Part -> bool {
    p => IsOwnSignature(lower, target, p)
  }

  /** The counting loop of the replay guard. */
  method CountOwnSignatures(lower: string -> string, messages: seq<Message>, provider: string) returns (count: nat)
    ensures count == CountInHistory(OwnSignatures(lower, provider), messages)
  {
    var own := OwnSignatures(lower, provider);
    count := 0;
    for i := 0 to |messages|
      invariant count + CountInHistory(own, messages[i..]) == CountInHistory(own, messages)
    {
      ghost var before := count;
      var parts := messages[i].parts;
      for j := 0 to |parts|
        invariant count + CountParts(own, parts[j..]) == before + CountParts(own, parts)
      {
        assert parts[j..][1..] == parts[j + 1..];
        if IsOwnSignature(lower, provider, parts[j]) {
          count := count + 1;
        }
      }
      assert messages[i..][1..] == messages[i + 1..];
    }
  }

  function ForeignParts(lower: string -> string, target: string): Part -> bool {
    p => IsForeign(lower, target, p)
  }

  method StripParts(lower: string -> string, parts: seq<Part>, target: string) returns (kept: seq<Part>, dropped: nat)
    ensures kept == KeptParts(lower, target, parts)
    ensures dropped == CountParts(ForeignParts(lower, target), parts)
  {
    kept, dropped := [], 0;
    for j := 0 to |parts|
      invariant kept + KeptParts(lower, target, parts[j..]) == KeptParts(lower, target, parts)
      invariant dropped + CountParts(ForeignParts(lower, target), parts[j..]) == CountParts(ForeignParts(lower, target), parts)
    {
      StripOne(lower, target, parts, j);
      if IsForeign(lower, target, parts[j]) {
        dropped := dropped + 1;
      } else {
        kept := kept + [parts[j]];
      }
    }
  }

  lemma StripOne(lower: string -> string, target: string, parts: seq<Part>, j: nat)
    requires j < |parts|
    ensures IsForeign(lower, target, parts[j]) ==>
      && KeptParts(lower, target, parts[j..]) == KeptParts(lower, target, parts[j + 1..])
      && CountParts(ForeignParts(lower, target), parts[j..]) == 1 + CountParts(ForeignParts(lower, target), parts[j + 1..])
    ensures !IsForeign(lower, target, parts[j]) ==>
      && KeptParts(lower, target, parts[j..]) == [parts[j]] + KeptParts(lower, target, parts[j + 1..])
      && CountParts(ForeignParts(lower, target), parts[j..]) == CountParts(ForeignParts(lower, target), parts[j + 1..])
  {
    assert parts[j..][1..] == parts[j + 1..];
  }

  method StripForeignReasoning(lower: string -> string, messages: seq<Message>, target: string)
    returns (out: seq<Message>, strippedForeign: nat)
    ensures out == Stripped(lower, target, messages)
    ensures strippedForeign == CountInHistory(ForeignParts(lower, target), messages)
  {
    out, strippedForeign := [], 0;
    for i := 0 to |messages|
      invariant |out| == i && forall k :: 0 <= k < i ==> out[k] == StrippedMessage(lower, target, messages[k])
      invariant strippedForeign + CountInHistory(ForeignParts(lower, target), messages[i..])
             == CountInHistory(ForeignParts(lower, target), messages)
    {
      assert messages[i..][1..] == messages[i + 1..];
      var kept, dropped := StripParts(lower, messages[i].parts, target);
      strippedForeign := strippedForeign + dropped;
      out := out + [messages[i].(parts := kept)];
    }
  }

  /** Strips, and refuses when the target is strict about replay and lost signatures of its own. */
  method PrepareForProvider(lower: string -> string, messages: seq<Message>, target: string)
    returns (r: Result<seq<Message>, IntegrityError>)
    ensures r == Ok(Stripped(lower, target, messages))
  {
    var out, stripped := StripForeignReasoning(lower, messages, target);
    if Normalise(lower, target) in {"google"} {
      var before: int := CountOwnSignatures(lower, messages, target);
      var after: int := CountOwnSignatures(lower, out, target);
      StrippingKeepsOwnSignatures(lower, target, messages);
      if after < before {
        return Err(ReasoningIntegrityError(target, before - after));
      }
    }
    r := Ok(out);
  }

  lemma {:induction false} KeptPartsMembers(lower: string -> string, target: string, parts: seq<Part>)
    ensures forall p :: p in KeptParts(lower, target, parts) <==> p in parts && !IsForeign(lower, target, p)
  {
    if parts != [] {
      KeptPartsMembers(lower, target, parts[1..]);
    }
  }

  lemma {:induction false} KeptPartsKeepOwn(lower: string -> string, target: string, parts: seq<Part>)
    ensures CountParts(OwnSignatures(lower, target), KeptParts(lower, target, parts)) == CountParts(OwnSignatures(lower, target), parts)
  {
    if parts != [] {
      KeptPartsKeepOwn(lower, target, parts[1..]);
      var kept := KeptParts(lower, target, parts[1..]);
      if IsForeign(lower, target, parts[0]) {
        assert [] + kept == kept;
      } else {
        assert ([parts[0]] + kept)[1..] == kept;
      }
    }
  }

  /** Stripping foreign reasoning never loses a signature of the target's own: the guard cannot fire. */
  lemma {:induction false} StrippingKeepsOwnSignatures(lower: string -> string, target: string, ms: seq<Message>)
    ensures CountInHistory(OwnSignatures(lower, target), Stripped(lower, target, ms)) == CountInHistory(OwnSignatures(lower, target), ms)
  {
    if ms != [] {
      KeptPartsKeepOwn(lower, target, ms[0].parts);
      StrippingKeepsOwnSignatures(lower, target, ms[1..]);
      assert Stripped(lower, target, ms)[1..] == Stripped(lower, target, ms[1..]);
    }
  }

  /** Stripping changes nothing exactly when no reasoning of another provider is there. */
  lemma StrippedIsSameIff(lower: string -> string, target: string, ms: seq<Message>)
    ensures Stripped(lower, target, ms) == ms
       <==> forall m, p :: m in ms && p in m.parts ==> !IsForeign(lower, target, p)
  {
    if forall m, p :: m in ms && p in m.parts ==> !IsForeign(lower, target, p) {
      forall i | 0 <= i < |ms| ensures StrippedMessage(lower, target, ms[i]) == ms[i] {
        assert ms[i] in ms;
        NothingForeign(lower, target, ms[i].parts);
      }
    } else {
      var m, p :| m in ms && p in m.parts && IsForeign(lower, target, p);
      var i :| 0 <= i < |ms| && ms[i] == m;
      KeptPartsMembers(lower, target, m.parts);
      assert p !in Stripped(lower, target, ms)[i].parts;
    }
  }

  lemma {:induction false} NothingForeign(lower: string -> string, target: string, parts: seq<Part>)
    requires forall p :: p in parts ==> !IsForeign(lower, target, p)
    ensures KeptParts(lower, target, parts) == parts
  {
    if parts != [] {
      NothingForeign(lower, target, parts[1..]);
    }
  }

  // ----- Which providers are the same -----

  lemma {:induction false} BeforeSuffix(vendor: string, model: string)
    requires '/' !in vendor
    ensures Common.Before(vendor, '/') == vendor && Common.Before(vendor + "/" + model, '/') == vendor
  {
    if vendor != "" {
      assert vendor[0] in vendor && (vendor + "/" + model)[1..] == vendor[1..] + "/" + model;
      BeforeSuffix(vendor[1..], model);
    }
  }

  predicate IsGoogle(vendor: string) { vendor == "google" || vendor == "vertex" || vendor == "google-vertex" }

  /** Providers are the same when their vendors are, in any case and whatever the model; Google has three names. */
  lemma SameProviderIff(lower: string -> string, v: string, w: string, model: string, other: string)
    requires '/' !in v && '/' !in w
    ensures SameProvider(lower, v + "/" + model, w + "/" + other)
       <==> lower(v) == lower(w) || (IsGoogle(lower(v)) && IsGoogle(lower(w)))
    ensures SameProvider(lower, v, w) <==> SameProvider(lower, v + "/" + model, w + "/" + other)
  {
    BeforeSuffix(v, model);
    BeforeSuffix(w, other);
  }

  lemma {:induction false} KeptAppend(lower: string -> string, target: string, a: seq<Part>, b: seq<Part>)
    ensures KeptParts(lower, target, a + b) == KeptParts(lower, target, a) + KeptParts(lower, target, b)
  {
    if a == [] {
      assert a + b == b;
    } else {
      assert (a + b)[1..] == a[1..] + b;
      KeptAppend(lower, target, a[1..], b);
      var first := if IsForeign(lower, target, a[0]) then [] else [a[0]];
      assert first + (KeptParts(lower, target, a[1..]) + KeptParts(lower, target, b))
          == first + KeptParts(lower, target, a[1..]) + KeptParts(lower, target, b);
    }
  }

  lemma KeptAlone(lower: string -> string, target: string, p: Part)
    ensures KeptParts(lower, target, [p]) == if p.ReasoningPart? && !SameProvider(lower, p.provider, target) then [] else [p]
  {
    assert [p][1..] == [];
  }

  /** What is dropped and kept is decided part by part, and the order stays. */
  lemma KeptPartByPart(lower: string -> string, target: string, a: seq<Part>, p: Part, b: seq<Part>)
    ensures KeptParts(lower, target, a + ([p] + b))
         == KeptParts(lower, target, a)
            + ((if p.ReasoningPart? && !SameProvider(lower, p.provider, target) then [] else [p]) + KeptParts(lower, target, b))
  {
    KeptAppend(lower, target, a, [p] + b);
    KeptAppend(lower, target, [p], b);
    KeptAlone(lower, target, p);
  }

  lemma {:induction false} CountPartsAppend(f: Part -> bool, a: seq<Part>, b: seq<Part>)
    ensures CountParts(f, a + b) == CountParts(f, a) + CountParts(f, b)
  {
    if a == [] {
      assert a + b == b;
    } else {
      assert (a + b)[1..] == a[1..] + b;
      CountPartsAppend(f, a[1..], b);
    }
  }

  /** A part counts when it is reasoning of the target's own with a signature that is not empty. */
  lemma OwnSignaturesPartByPart(lower: string -> string, target: string, a: seq<Part>, p: Part, b: seq<Part>)
    ensures CountParts(OwnSignatures(lower, target), a + ([p] + b))
         == CountParts(OwnSignatures(lower, target), a) + CountParts(OwnSignatures(lower, target), b)
            + if p.ReasoningPart? && SameProvider(lower, p.provider, target) && p.signature.Some? && p.signature != Some("") then 1 else 0
  {
    CountPartsAppend(OwnSignatures(lower, target), a, [p] + b);
    assert ([p] + b)[1..] == b;
  }
}
