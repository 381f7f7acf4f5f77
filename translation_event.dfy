/** The translation record and its dictionary form (`TranslationEvent.to_dict`). */
module TranslationEvents {
  import opened Wrappers

  /** A 64-bit floating-point number, kept as its bit pattern: no arithmetic is done on it. */
  datatype Float = Float(bits: bv64)

  /** The ISO-8601 text of the moment `to_dict` reads the clock. */
  datatype Timestamp = Timestamp(iso: string)

  /** One translated utterance. The four optional fields are `None` unless the caller sets them. */
  datatype TranslationEvent = TranslationEvent(
    translatedText: string,
    sourceText: string,
    sourceLanguage: string,
    targetLanguage: string,
    confidenceScore: Option<Float>,
    translationService: Option<string>,
    userId: Option<string>,
    sessionId: Option<string>)

  /** A value in the dictionary handed to the JSON encoder. */
  datatype Value = Null | Str(s: string) | Num(f: Float)

  /** The ten keys of a serialised event; `Name` gives each one's text in the JSON object. */
  datatype Field =
    | TranslatedText | SourceText | SourceLanguage | TargetLanguage | ConfidenceScore
    | TranslationService | UserId | SessionId | TimestampField | EventTypeField

  function Name(f: Field): string {
    match f
    case TranslatedText => "translated_text"
    case SourceText => "source_text"
    case SourceLanguage => "source_language"
    case TargetLanguage => "target_language"
    case ConfidenceScore => "confidence_score"
    case TranslationService => "translation_service"
    case UserId => "user_id"
    case SessionId => "session_id"
    case TimestampField => "timestamp"
    case EventTypeField => "event_type"
  }

  /** The key a JSON member name stands for, if any. */
  function FieldNamed(name: string): Option<Field> {
    if name == "translated_text" then Some(TranslatedText)
    else if name == "source_text" then Some(SourceText)
    else if name == "source_language" then Some(SourceLanguage)
    else if name == "target_language" then Some(TargetLanguage)
    else if name == "confidence_score" then Some(ConfidenceScore)
    else if name == "translation_service" then Some(TranslationService)
    else if name == "user_id" then Some(UserId)
    else if name == "session_id" then Some(SessionId)
    else if name == "timestamp" then Some(TimestampField)
    else if name == "event_type" then Some(EventTypeField)
    else None
  }

  /** Every key is found again from its name, so no two keys share a name. */
  lemma NameRoundTrip(f: Field)
    ensures FieldNamed(Name(f)) == Some(f)
  {
  }

  lemma NamesDistinct(f: Field, g: Field)
    requires Name(f) == Name(g)
    ensures f == g
  {
    NameRoundTrip(f);
    NameRoundTrip(g);
  }

  type Dict = map<Field, Value>

  /** The `event_type` every dictionary carries. */
  const EventType: string := "translation"

  const Keys: set<Field> := {
    TranslatedText, SourceText, SourceLanguage, TargetLanguage, ConfidenceScore,
    TranslationService, UserId, SessionId, TimestampField, EventTypeField }

  function StrOrNull(o: Option<string>): Value {
    match o
    case None => Null
    case Some(s) => Str(s)
  }

  function NumOrNull(o: Option<Float>): Value {
    match o
    case None => Null
    case Some(f) => Num(f)
  }

  /** `to_dict`: the eight fields unchanged, the time `now` read from the clock and the constant event type. */
  function ToDict(e: TranslationEvent, now: Timestamp): (d: Dict)
    ensures d.Keys == Keys
    ensures d[EventTypeField] == Str(EventType) && d[TimestampField] == Str(now.iso)
  {
    map[
      TranslatedText := Str(e.translatedText),
      SourceText := Str(e.sourceText),
      SourceLanguage := Str(e.sourceLanguage),
      TargetLanguage := Str(e.targetLanguage),
      ConfidenceScore := NumOrNull(e.confidenceScore),
      TranslationService := StrOrNull(e.translationService),
      UserId := StrOrNull(e.userId),
      SessionId := StrOrNull(e.sessionId),
      TimestampField := Str(now.iso),
      EventTypeField := Str(EventType)]
  }

  function AsStr(v: Value): Option<string> {
    if v.Str? then Some(v.s) else None
  }

  function AsOptStr(v: Value): Option<Option<string>> {
    match v
    case Null => Some(None)
    case Str(s) => Some(Some(s))
    case Num(_) => None
  }

  function AsOptNum(v: Value): Option<Option<Float>> {
    match v
    case Null => Some(None)
    case Num(f) => Some(Some(f))
    case Str(_) => None
  }

  /**
   * Reads a dictionary of the shape `to_dict` produces back into the event and the timestamp;
   * `None` for any other dictionary. It is the inverse that the round trip below is stated against.
   */
  function FromDict(d: Dict): Option<(TranslationEvent, Timestamp)> {
    if d.Keys != Keys || d[EventTypeField] != Str(EventType) then None
    else
      var translated := AsStr(d[TranslatedText]);
      var source := AsStr(d[SourceText]);
      var sourceLang := AsStr(d[SourceLanguage]);
      var targetLang := AsStr(d[TargetLanguage]);
      var score := AsOptNum(d[ConfidenceScore]);
      var service := AsOptStr(d[TranslationService]);
      var user := AsOptStr(d[UserId]);
      var session := AsOptStr(d[SessionId]);
      var stamp := AsStr(d[TimestampField]);
      if translated.None? || source.None? || sourceLang.None? || targetLang.None? || score.None?
         || service.None? || user.None? || session.None? || stamp.None?
      then None
      else Some((TranslationEvent(translated.value, source.value, sourceLang.value, targetLang.value,
                                  score.value, service.value, user.value, session.value),
                 Timestamp(stamp.value)))
  }

  /** `to_dict` loses nothing: the event and the clock reading can be read back from the dictionary. */
  lemma ToDictRoundTrip(e: TranslationEvent, now: Timestamp)
    ensures FromDict(ToDict(e, now)) == Some((e, now))
  {
    var d := ToDict(e, now);
    match e.confidenceScore { case None => case Some(_) => }
    assert AsOptStr(d[TranslationService]) == Some(e.translationService) by {
      match e.translationService { case None => case Some(_) => }
    }
    assert AsOptStr(d[UserId]) == Some(e.userId) by {
      match e.userId { case None => case Some(_) => }
    }
    assert AsOptStr(d[SessionId]) == Some(e.sessionId) by {
      match e.sessionId { case None => case Some(_) => }
    }
  }

  /** Two events serialised at the same moment give the same dictionary only if they are the same event. */
  lemma ToDictInjective(e1: TranslationEvent, e2: TranslationEvent, now: Timestamp)
    requires ToDict(e1, now) == ToDict(e2, now)
    ensures e1 == e2
  {
    ToDictRoundTrip(e1, now);
    ToDictRoundTrip(e2, now);
  }

  /** The partition key the producer derives from an event: `"<source_language>-to-<target_language>"`. */
  function PartitionKey(e: TranslationEvent): (k: string)
    ensures |k| == |e.sourceLanguage| + 4 + |e.targetLanguage|
    ensures k[..|e.sourceLanguage|] == e.sourceLanguage
    ensures k[|e.sourceLanguage|..|e.sourceLanguage| + 4] == "-to-"
    ensures k[|e.sourceLanguage| + 4..] == e.targetLanguage
  {
    e.sourceLanguage + "-to-" + e.targetLanguage
  }
}
