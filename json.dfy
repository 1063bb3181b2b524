/**
 * How a cached value becomes JSON and back (JsonConvert.SerializeObject /
 * DeserializeObject as the cache uses them).  The text layer and the text of
 * a DateTimeOffset are external codecs; the member binding is modelled:
 * an absent GraceTimeStamp is left out of the object (NullValueHandling.Ignore),
 * a null child member is written as JSON null, properties are matched to
 * members ignoring case, and when a member occurs twice the later wins.
 */
module Json {
  import opened Wrappers
  import opened Exceptions
  import opened Codecs
  import opened CacheValues

  datatype JsonValue = JNull | JBool(b: bool) | JString(s: string) | JNumber(n: int)

  datatype JsonProperty = JsonProperty(name: string, value: JsonValue)

  /** A JSON text is an object or a bare value (the text `null` among them). */
  datatype JsonDocument = JsonObject(properties: seq<JsonProperty>) | JsonScalar(value: JsonValue)

  /** The external parts of JsonConvert: the text layer and the date text format. */
  datatype JsonConvert = JsonConvert(text: Codec<JsonDocument, string>, dates: Codec<int, string>)

  const GraceTimeStampMember: string := "GraceTimeStamp"
  const IsNullMember: string := "IsNull"
  const ChildMember: string := "ChildMemberVariable"

  /** What Newtonsoft throws when a JSON value does not fit the member's type. */
  const BindingError: Exception := Raised(["JsonSerializationException", "JsonException"], "Error converting value")

  /** What Newtonsoft's reader throws for a non-empty string that is not a boolean. */
  const ReaderError: Exception := Raised(["JsonReaderException", "JsonException"], "Could not convert string to boolean")

  /** GraceTimeStamp is written only when present (NullValueHandling.Ignore). */
  function GraceProperties(dates: Codec<int, string>, graceTimeStamp: Option<int>): seq<JsonProperty> {
    if graceTimeStamp.Some? then [JsonProperty(GraceTimeStampMember, JString(dates.encode(graceTimeStamp.value)))] else []
  }

  /** A null child member is written as JSON null. */
  function ChildValue(child: Option<string>): JsonValue {
    if child.Some? then JString(child.value) else JNull
  }

  function ToDocument(dates: Codec<int, string>, v: Option<ValueData>): JsonDocument {
    match v
    case None => JsonScalar(JNull)
    case Some(d) =>
      JsonObject(GraceProperties(dates, d.graceTimeStamp)
                 + [JsonProperty(IsNullMember, JBool(d.isNull)), JsonProperty(ChildMember, ChildValue(d.child))])
  }

  function ToLowerAscii(c: char): char {
    if 'A' <= c <= 'Z' then (c as int + 32) as char else c
  }

  /** Ordinal case-insensitive equality (ASCII letters only). */
  predicate EqualsIgnoreCase(a: string, b: string) {
    |a| == |b| && forall i :: 0 <= i < |a| ==> ToLowerAscii(a[i]) == ToLowerAscii(b[i])
  }

  /** The value bound to `member`: that of the last property whose name matches it,
      ignoring case (see LookupFindsLastMatch). */
  function Lookup(props: seq<JsonProperty>, member: string): Option<JsonValue> {
    if props == [] then None
    else
      var last := props[|props| - 1];
      if EqualsIgnoreCase(last.name, member) then Some(last.value)
      else Lookup(props[..|props| - 1], member)
  }

  /** Lookup finds nothing iff no property matches, and otherwise the value of the last
      matching property. */
  lemma {:induction false} LookupFindsLastMatch(props: seq<JsonProperty>, member: string)
    ensures Lookup(props, member).None? <==> forall i :: 0 <= i < |props| ==> !EqualsIgnoreCase(props[i].name, member)
    ensures Lookup(props, member).Some? ==>
              exists i :: 0 <= i < |props| && EqualsIgnoreCase(props[i].name, member)
                          && props[i].value == Lookup(props, member).value
                          && forall j :: i < j < |props| ==> !EqualsIgnoreCase(props[j].name, member)
  {
    if props != [] {
      var n := |props|;
      var init := props[..n - 1];
      if EqualsIgnoreCase(props[n - 1].name, member) {
        assert Lookup(props, member) == Some(props[n - 1].value);
      } else {
        assert Lookup(props, member) == Lookup(init, member);
        LookupFindsLastMatch(init, member);
        assert forall i :: 0 <= i < n - 1 ==> props[i] == init[i];
        if Lookup(init, member).Some? {
          var i :| 0 <= i < n - 1 && EqualsIgnoreCase(init[i].name, member)
                   && init[i].value == Lookup(init, member).value
                   && forall j :: i < j < n - 1 ==> !EqualsIgnoreCase(init[j].name, member);
          assert props[i] == init[i];
          assert forall j :: i < j < n ==> !EqualsIgnoreCase(props[j].name, member);
        }
      }
    }
  }

  function ReadTimestamp(dates: Codec<int, string>, v: Option<JsonValue>): Result<Option<int>, Exception> {
    match v
    case None => Success(None)
    case Some(JNull) => Success(None)
    case Some(JString(s)) =>
      (match dates.decode(s)
       case Success(t) => Success(Some(t))
       case Failure(e) => Failure(e))
    case Some(_) => Failure(BindingError)
  }

  function DigitChar(d: int): char
    requires 0 <= d < 10
  {
    ('0' as int + d) as char
  }

  predicate IsDigit(c: char) {
    '0' <= c <= '9'
  }

  /** The invariant-culture decimal text of a natural number. */
  function NatText(n: nat): (s: string)
    ensures |s| > 0 && forall i :: 0 <= i < |s| ==> IsDigit(s[i])
  {
    if n < 10 then [DigitChar(n)] else NatText(n / 10) + [DigitChar(n % 10)]
  }

  /** `long.ToString(CultureInfo.InvariantCulture)`: a leading '-' for negative numbers. */
  function IntText(n: int): string {
    if n < 0 then "-" + NatText(-n) else NatText(n)
  }

  /** The value of a run of decimal digits. */
  function DigitsValue(s: string): nat
    requires forall i :: 0 <= i < |s| ==> IsDigit(s[i])
  {
    if s == [] then 0
    else
      var last := s[|s| - 1];
      assert IsDigit(last);
      10 * DigitsValue(s[..|s| - 1]) + (last as int - '0' as int)
  }

  /** Reads back the text of a number, as IntText writes it. */
  function ParseInt(s: string): int
    requires |s| > 0
    requires forall i :: 0 <= i < |s| ==> IsDigit(s[i]) || (i == 0 && s[i] == '-')
  {
    if s[0] == '-' then 0 - DigitsValue(s[1..]) as int else DigitsValue(s)
  }

  lemma {:induction false} NatTextRoundTrip(n: nat)
    ensures DigitsValue(NatText(n)) == n
  {
    if n >= 10 {
      NatTextRoundTrip(n / 10);
      var s := NatText(n);
      assert s[..|s| - 1] == NatText(n / 10);
    }
  }

  /** The number text a string member receives names the number it came from. */
  lemma IntTextRoundTrip(n: int)
    ensures |IntText(n)| > 0
    ensures forall i :: 0 <= i < |IntText(n)| ==> IsDigit(IntText(n)[i]) || (i == 0 && IntText(n)[i] == '-')
    ensures ParseInt(IntText(n)) == n
  {
    if n < 0 {
      NatTextRoundTrip(-n);
      assert IntText(n)[1..] == NatText(-n);
    } else {
      NatTextRoundTrip(n);
    }
  }

  /** A bool member (ReadAsBoolean): absent keeps default(bool); a JSON bool binds as is,
      an integer as non-zero, and the strings "true" and "false" in any case.  Null and the
      empty string are read as null, which the member's type refuses; any other string
      makes the reader throw. */
  function ReadBool(v: Option<JsonValue>): (r: Result<bool, Exception>)
    ensures r.Success? <==> v.None? || v.value.JBool? || v.value.JNumber?
                            || (v.value.JString? && (EqualsIgnoreCase(v.value.s, "true") || EqualsIgnoreCase(v.value.s, "false")))
    ensures v.None? ==> r == Success(false)
    ensures v.Some? && v.value.JBool? ==> r == Success(v.value.b)
    ensures r.Success? && v.Some? && v.value.JNumber? ==> r.value == (v.value.n != 0)
    ensures r.Success? && v.Some? && v.value.JString? ==> r.value == EqualsIgnoreCase(v.value.s, "true")
    ensures r.Failure? ==> r.error == if v.value.JString? && v.value.s != "" then ReaderError else BindingError
  {
    match v
    case None => Success(false)
    case Some(JBool(b)) => Success(b)
    case Some(JNumber(n)) => Success(n != 0)
    case Some(JString(s)) =>
      if s == "" then Failure(BindingError)
      else if EqualsIgnoreCase(s, "true") then Success(true)
      else if EqualsIgnoreCase(s, "false") then Success(false)
      else Failure(ReaderError)
    case Some(JNull) => Failure(BindingError)
  }

  /** A string member (ReadAsString): never throws; absent and null give null, a bool binds
      as the JSON literal "true" or "false", and a number as its decimal text. */
  function ReadString(v: Option<JsonValue>): (r: Result<Option<string>, Exception>)
    ensures r.Success?
    ensures r.value.None? <==> v.None? || v.value.JNull?
    ensures v.Some? && v.value.JString? ==> r.value == Some(v.value.s)
    ensures v.Some? && v.value.JNumber? ==> r.value == Some(IntText(v.value.n)) && ParseInt(r.value.value) == v.value.n
    ensures v.Some? && v.value.JBool? ==> r.value == Some(if v.value.b then "true" else "false")
  {
    match v
    case None => Success(None)
    case Some(JNull) => Success(None)
    case Some(JString(s)) => Success(Some(s))
    case Some(JNumber(n)) =>
      IntTextRoundTrip(n);
      Success(Some(IntText(n)))
    case Some(JBool(b)) => Success(Some(if b then "true" else "false"))
  }

  /** Binds a document to a value; the text `null` gives a null value. */
  function FromDocument(dates: Codec<int, string>, doc: JsonDocument): Result<Option<ValueData>, Exception> {
    match doc
    case JsonScalar(JNull) => Success(None)
    case JsonScalar(_) => Failure(BindingError)
    case JsonObject(props) =>
      var grace := ReadTimestamp(dates, Lookup(props, GraceTimeStampMember));
      var isNull := ReadBool(Lookup(props, IsNullMember));
      var child := ReadString(Lookup(props, ChildMember));
      if grace.Failure? then Failure(grace.error)
      else if isNull.Failure? then Failure(isNull.error)
      else if child.Failure? then Failure(child.error)
      else Success(Some(ValueData(grace.value, isNull.value, child.value)))
  }

  /** JsonConvert.SerializeObject. */
  function SerializeObject(j: JsonConvert, v: Option<ValueData>): string {
    j.text.encode(ToDocument(j.dates, v))
  }

  /** JsonConvert.DeserializeObject: malformed text throws, and so does a member whose
      value cannot be converted to the member's type. */
  function DeserializeObject(j: JsonConvert, s: string): (r: Result<Option<ValueData>, Exception>)
    ensures j.text.decode(s).Failure? ==> r == Failure(j.text.decode(s).error)
    ensures j.text.decode(s) == Success(JsonScalar(JNull)) ==> r == Success(None)
    ensures r.Success? && r.value.Some? ==> j.text.decode(s).Success? && j.text.decode(s).value.JsonObject?
  {
    match j.text.decode(s)
    case Failure(e) => Failure(e)
    case Success(doc) => FromDocument(j.dates, doc)
  }

  /** The three member names differ even ignoring case. */
  lemma MembersDistinct()
    ensures !EqualsIgnoreCase(IsNullMember, GraceTimeStampMember)
    ensures !EqualsIgnoreCase(ChildMember, GraceTimeStampMember)
    ensures !EqualsIgnoreCase(ChildMember, IsNullMember)
    ensures !EqualsIgnoreCase(IsNullMember, ChildMember)
  {
  }

  lemma LookupStep(props: seq<JsonProperty>, p: JsonProperty, member: string)
    ensures EqualsIgnoreCase(p.name, member) ==> Lookup(props + [p], member) == Some(p.value)
    ensures !EqualsIgnoreCase(p.name, member) ==> Lookup(props + [p], member) == Lookup(props, member)
  {
    assert (props + [p])[..|props|] == props;
  }

  /** Each member of a written value looks up to what was written for it. */
  lemma DocumentLookups(dates: Codec<int, string>, d: ValueData)
    ensures var props := ToDocument(dates, Some(d)).properties;
            Lookup(props, ChildMember) == Some(ChildValue(d.child))
            && Lookup(props, IsNullMember) == Some(JBool(d.isNull))
            && Lookup(props, GraceTimeStampMember) == Lookup(GraceProperties(dates, d.graceTimeStamp), GraceTimeStampMember)
  {
    var head := GraceProperties(dates, d.graceTimeStamp);
    var isNullProp := JsonProperty(IsNullMember, JBool(d.isNull));
    var childProp := JsonProperty(ChildMember, ChildValue(d.child));
    assert ToDocument(dates, Some(d)).properties == (head + [isNullProp]) + [childProp];
    MembersDistinct();
    assert EqualsIgnoreCase(ChildMember, ChildMember);
    assert EqualsIgnoreCase(IsNullMember, IsNullMember);
    LookupStep(head + [isNullProp], childProp, ChildMember);
    LookupStep(head + [isNullProp], childProp, IsNullMember);
    LookupStep(head, isNullProp, IsNullMember);
    LookupStep(head + [isNullProp], childProp, GraceTimeStampMember);
    LookupStep(head, isNullProp, GraceTimeStampMember);
  }

  /** The written grace time stamp reads back, when the date text round-trips. */
  lemma GraceReadsBack(dates: Codec<int, string>, graceTimeStamp: Option<int>)
    requires RoundTrips(dates)
    ensures ReadTimestamp(dates, Lookup(GraceProperties(dates, graceTimeStamp), GraceTimeStampMember)) == Success(graceTimeStamp)
  {
    if graceTimeStamp.Some? {
      var p := JsonProperty(GraceTimeStampMember, JString(dates.encode(graceTimeStamp.value)));
      assert EqualsIgnoreCase(GraceTimeStampMember, GraceTimeStampMember);
      LookupStep([], p, GraceTimeStampMember);
      assert [] + [p] == GraceProperties(dates, graceTimeStamp);
      assert dates.decode(dates.encode(graceTimeStamp.value)) == Success(graceTimeStamp.value);
    }
  }

  /** Binding the document of a value gives the value back, timestamp and null sentinel
      included, provided the date text round-trips. */
  lemma BindingRoundTrip(dates: Codec<int, string>, v: Option<ValueData>)
    requires RoundTrips(dates)
    ensures FromDocument(dates, ToDocument(dates, v)) == Success(v)
  {
    if v.Some? {
      DocumentLookups(dates, v.value);
      GraceReadsBack(dates, v.value.graceTimeStamp);
    }
  }

  /** JSON round trip: what SerializeObject writes, DeserializeObject reads back. */
  lemma JsonRoundTrip(j: JsonConvert, v: Option<ValueData>)
    requires RoundTrips(j.text) && RoundTrips(j.dates)
    ensures DeserializeObject(j, SerializeObject(j, v)) == Success(v)
  {
    assert j.text.decode(j.text.encode(ToDocument(j.dates, v))) == Success(ToDocument(j.dates, v));
    BindingRoundTrip(j.dates, v);
  }

  /** A value without a grace time stamp is written with no GraceTimeStamp property at all. */
  lemma AbsentGraceOmitted(dates: Codec<int, string>, d: ValueData)
    requires d.graceTimeStamp.None?
    ensures ToDocument(dates, Some(d)).JsonObject?
    ensures Lookup(ToDocument(dates, Some(d)).properties, GraceTimeStampMember) == None
  {
    DocumentLookups(dates, d);
  }

  lemma {:induction false} LowerIsIdempotent(c: char)
    ensures ToLowerAscii(ToLowerAscii(c)) == ToLowerAscii(c)
  {
  }

  /** Member lookup cannot tell two names apart that differ only in case. */
  lemma {:induction false} LookupIgnoresCase(props: seq<JsonProperty>, a: string, b: string)
    requires EqualsIgnoreCase(a, b)
    ensures Lookup(props, a) == Lookup(props, b)
  {
    if props != [] {
      var name := props[|props| - 1].name;
      assert EqualsIgnoreCase(name, a) <==> EqualsIgnoreCase(name, b);
      LookupIgnoresCase(props[..|props| - 1], a, b);
    }
  }

  /** Properties after the last match of a member do not affect its lookup. */
  lemma {:induction false} LookupSkipsUnmatchedSuffix(pre: seq<JsonProperty>, rest: seq<JsonProperty>, member: string)
    requires forall i :: 0 <= i < |rest| ==> !EqualsIgnoreCase(rest[i].name, member)
    ensures Lookup(pre + rest, member) == Lookup(pre, member)
  {
    if rest != [] {
      var n := |rest|;
      LookupSkipsUnmatchedSuffix(pre, rest[..n - 1], member);
      assert !EqualsIgnoreCase(rest[n - 1].name, member);
      assert rest == rest[..n - 1] + [rest[n - 1]];
      assert pre + rest == (pre + rest[..n - 1]) + [rest[n - 1]];
      LookupStep(pre + rest[..n - 1], rest[n - 1], member);
    } else {
      assert pre + rest == pre;
    }
  }

  lemma CamelCaseNameMatches()
    ensures EqualsIgnoreCase("graceTimeStamp", GraceTimeStampMember)
  {
  }

  /** A matching property followed only by properties that do not match decides the lookup. */
  lemma LookupLeadingMatch(first: JsonProperty, rest: seq<JsonProperty>, member: string)
    requires EqualsIgnoreCase(first.name, member)
    requires forall i :: 0 <= i < |rest| ==> !EqualsIgnoreCase(rest[i].name, member)
    ensures Lookup([first] + rest, member) == Some(first.value)
  {
    assert Lookup([first], member) == Some(first.value);
    LookupSkipsUnmatchedSuffix([first], rest, member);
  }

  /** A property whose name matches GraceTimeStamp ignoring case (the camel-cased
      `graceTimeStamp` among them, by CamelCaseNameMatches) populates the grace time stamp
      when no later property matches. */
  lemma CamelCaseGraceIsRead(dates: Codec<int, string>, name: string, text: string, t: int, rest: seq<JsonProperty>)
    requires EqualsIgnoreCase(name, GraceTimeStampMember)
    requires dates.decode(text) == Success(t)
    requires forall i :: 0 <= i < |rest| ==> !EqualsIgnoreCase(rest[i].name, GraceTimeStampMember)
    ensures ReadTimestamp(dates, Lookup([JsonProperty(name, JString(text))] + rest, GraceTimeStampMember)) == Success(Some(t))
  {
    LookupLeadingMatch(JsonProperty(name, JString(text)), rest, GraceTimeStampMember);
  }
}
