/**
  The speech-service client of voice.py: voice records and their normalisation,
  the ten-minute voice-list cache, the voice-list fetch with its fallback, and
  speech synthesis with its local input check. The clock is an integer number of
  milliseconds passed in by the caller; the network is the outcome of each attempt.
*/
module VoiceClient {
  import opened Wrappers
  import opened Retry

  /** A voice record as the provider's JSON lists it; every field may be missing. */
  datatype RawVoice = RawVoice(
    voiceId: Option<string>,
    id: Option<string>,
    name: Option<string>,
    labels: Option<map<string, string>>)

  /** The decoded JSON object of a voice-list response: the list sits under "voices" or "data". */
  datatype Payload = Payload(voices: Option<seq<RawVoice>>, data: Option<seq<RawVoice>>)

  /** A voice as the bot uses it. `id` is None when the record had neither identifier field. */
  datatype Voice = Voice(id: Option<string>, name: string, labels: Option<map<string, string>>)

  type Bytes = seq<bv8>

  /** Python truthiness of an optional string: present and not empty. */
  predicate Truthy(s: Option<string>) {
    s.Some? && s.value != ""
  }

  /** The entry used when no voice list can be had: the configured default voice. */
  function FallbackVoice(defaultVoiceId: string): Voice {
    Voice(Some(defaultVoiceId), "Default", Some(map[]))
  }

  /** `data.get("voices") or data.get("data") or []`: the first non-empty list. */
  function Items(p: Payload): (items: seq<RawVoice>)
    ensures p.voices.Some? && p.voices.value != [] ==> items == p.voices.value
    ensures items != [] ==> (p.voices.Some? && items == p.voices.value) || (p.data.Some? && items == p.data.value)
    ensures items == [] <==> (p.voices.None? || p.voices.value == []) && (p.data.None? || p.data.value == [])
  {
    if p.voices.Some? && p.voices.value != [] then p.voices.value
    else if p.data.Some? && p.data.value != [] then p.data.value
    else []
  }

  /**
    One record, normalised: the id is `voice_id` or else `id`, the name defaults
    to "Unnamed", and empty or missing labels become None.
  */
  function Normalize(v: RawVoice): (r: Voice)
    ensures Truthy(r.id) <==> Truthy(v.voiceId) || Truthy(v.id)
    ensures Truthy(v.voiceId) ==> r.id == v.voiceId
    ensures !Truthy(v.voiceId) ==> r.id == v.id
    ensures r.name != ""
    ensures Truthy(v.name) ==> r.name == v.name.value
    ensures !Truthy(v.name) ==> r.name == "Unnamed"
    ensures r.labels.Some? <==> v.labels.Some? && v.labels.value != map[]
    ensures r.labels.Some? ==> r.labels == v.labels
  {
    Voice(
      if Truthy(v.voiceId) then v.voiceId else v.id,
      if Truthy(v.name) then v.name.value else "Unnamed",
      if v.labels.Some? && v.labels.value != map[] then v.labels else None)
  }

  /** The normalisation loop of `get_voices`: one voice per record, in order. */
  method NormalizeVoices(items: seq<RawVoice>) returns (voices: seq<Voice>)
    ensures |voices| == |items|
    ensures forall i :: 0 <= i < |items| ==> voices[i] == Normalize(items[i])
  {
    voices := [];
    for i := 0 to |items|
      invariant |voices| == i
      invariant forall j :: 0 <= j < i ==> voices[j] == Normalize(items[j])
    {
      voices := voices + [Normalize(items[i])];
    }
  }

  /** Ten minutes, in milliseconds. */
  const TtlMs: int := 600_000

  /** The process-wide voice-list cache: the last list stored and when it was stored. */
  class VoicesCache {
    var value: Option<seq<Voice>>
    var ts: int

    /** `get_voices` only ever stores non-empty lists. */
    ghost predicate Valid()
      reads this
    {
      value.Some? ==> value.value != []
    }

    constructor ()
      ensures value == None && ts == 0
      ensures Valid()
    {
      value := None;
      ts := 0;
    }

    /** The stored list while it is fresh: nothing is returned once more than the TTL has passed. */
    function Get(now: int): (r: Option<seq<Voice>>)
      reads this
      ensures r.Some? <==> value.Some? && now - ts <= TtlMs
      ensures r.Some? ==> r == value
    {
      if value.None? then None
      else if now - ts > TtlMs then None
      else value
    }

    /** Stores `v` stamped with `now`: a lookup up to the TTL later returns `v`, any later one nothing. */
    method Set(v: seq<Voice>, now: int)
      modifies this
      ensures value == Some(v) && ts == now
      ensures forall t :: t <= now + TtlMs ==> Get(t) == Some(v)
      ensures forall t :: t > now + TtlMs ==> Get(t) == None
    {
      value := Some(v);
      ts := now;
    }
  }

  /**
    `get_voices`: a fresh cache entry is returned without any attempt. Otherwise
    the retry loop runs; a success is normalised (an empty result becomes the
    single default voice), stored in the cache at `storedAt` and returned; when no
    attempt succeeds the single default voice is returned and nothing is cached.
  */
  method GetVoices(cache: VoicesCache, now: int, storedAt: int, defaultVoiceId: string,
                   network: nat -> Outcome<Payload>)
    returns (voices: seq<Voice>, attempts: nat, slept: seq<nat>)
    requires cache.Valid()
    modifies cache
    ensures cache.Valid()
    ensures |voices| >= 1
    ensures old(cache.Get(now)).Some? ==>
      && voices == old(cache.value).value
      && attempts == 0 && slept == []
      && unchanged(cache)
    ensures old(cache.Get(now)).None? ==>
      var run := Drive(network, 0);
      && attempts == run.attempts
      && slept == Backoffs[1..attempts]
      && (run.last.Success? ==>
            var items := Items(run.last.body);
            && (items != [] ==> |voices| == |items| &&
                                forall i :: 0 <= i < |items| ==> voices[i] == Normalize(items[i]))
            && (items == [] ==> voices == [FallbackVoice(defaultVoiceId)])
            && cache.value == Some(voices) && cache.ts == storedAt)
      && (!run.last.Success? ==> voices == [FallbackVoice(defaultVoiceId)] && unchanged(cache))
  {
    var cached := cache.Get(now);
    if cached.Some? {
      return cached.value, 0, [];
    }
    var run;
    run, slept := RunAttempts(network);
    attempts := run.attempts;
    if run.last.Success? {
      voices := NormalizeVoices(Items(run.last.body));
      if voices == [] {
        voices := [FallbackVoice(defaultVoiceId)];
      }
      cache.Set(voices, storedAt);
    } else {
      voices := [FallbackVoice(defaultVoiceId)];
    }
  }

  /** Longest text the service is asked to speak, in characters. */
  const MaxTextLength: nat := 5000

  const EmptyTextMessage: string := "Пустой текст"
  const TooLongMessage: string := "Слишком длинный текст (>5000)"
  /** The one user-facing message of a failed synthesis; it carries no detail of the failure. */
  const UnavailableMessage: string := "Не удалось сгенерировать аудио. Попробуйте позже."

  /** InvalidInputError (local check, never retried) and VoiceServiceError (the service failed). */
  datatype SpeechError = InvalidInput(message: string) | ServiceUnavailable(message: string)

  /**
    `synthesize_speech`: empty text and text over 5000 characters are refused
    before any attempt; otherwise the body of the first successful attempt is
    returned, and when the run ends without one, the fixed service error.
  */
  method SynthesizeSpeech(text: string, network: nat -> Outcome<Bytes>)
    returns (r: Result<Bytes, SpeechError>, attempts: nat, slept: seq<nat>)
    ensures text == "" ==> r == Err(InvalidInput(EmptyTextMessage)) && attempts == 0 && slept == []
    ensures |text| > MaxTextLength ==>
      r == Err(InvalidInput(TooLongMessage)) && attempts == 0 && slept == []
    ensures 0 < |text| <= MaxTextLength ==>
      var run := Drive(network, 0);
      && attempts == run.attempts
      && slept == Backoffs[1..attempts]
      && (run.last.Success? ==> r == Ok(run.last.body))
      && (!run.last.Success? ==> r == Err(ServiceUnavailable(UnavailableMessage)))
  {
    if text == "" {
      return Err(InvalidInput(EmptyTextMessage)), 0, [];
    }
    if |text| > MaxTextLength {
      return Err(InvalidInput(TooLongMessage)), 0, [];
    }
    var run;
    run, slept := RunAttempts(network);
    attempts := run.attempts;
    if run.last.Success? {
      r := Ok(run.last.body);
    } else {
      r := Err(ServiceUnavailable(UnavailableMessage));
    }
  }
}
