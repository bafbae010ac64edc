/** The value types of configuration items (config/metadata/type.go): each
    validates a configured string and converts it to its typed value. */
module ConfigTypes {
  import opened Wrappers
  import opened Errors
  import GoStrings
  import StrConv

  datatype Type =
    | StringType
    | NonEmptyStringType        // embeds StringType: validates differently, gets the same
    | IntType
    | PortType                  // embeds IntType
    | Int64Type
    | BoolType
    | PasswordType
    | MapType
    | StringToStringMapType
    | QuotaType                 // embeds Int64Type

  /** The dynamic value `get` returns as interface{}; a map[string]interface{}
      is kept without its contents. */
  datatype Value =
    | StrV(s: string)
    | IntV(i: int)
    | Int64V(i: int)
    | BoolV(b: bool)
    | ObjectV
    | StrMapV(m: map<string, string>)

  /** json.Unmarshal into the two map types, which the model does not define:
      whether a string decodes into a map[string]interface{}, and what it decodes
      to as a map[string]string. */
  datatype Json = Json(isObject: string -> bool, stringMap: string -> Option<map<string, string>>)

  const ErrorStringValueIsEmpty := Text("the configure value can not be empty")

  /** parseInt: strconv.ParseInt with 32 bits; the float fallback is not modelled. */
  function ParseIntValue(str: string): (r: Result<int, Error>)
    ensures r.Success? <==> StrConv.ParseInt(str, 32, "ParseInt").Success?
    ensures r.Success? ==> r.value == StrConv.ParseDecimal(str).value
    ensures r.Failure? ==> r.error == Text("invalid int string: " + str)
  {
    match StrConv.ParseInt(str, 32, "ParseInt")
    case Success(v) => Success(v)
    case Failure(_) => Failure(Text("invalid int string: " + str))
  }

  /** parseInt64: strconv.ParseInt with 64 bits; the float fallback is not modelled. */
  function ParseInt64Value(str: string): (r: Result<int, Error>)
    ensures r.Success? <==> StrConv.ParseInt(str, 64, "ParseInt").Success?
    ensures r.Success? ==> r.value == StrConv.ParseDecimal(str).value
    ensures r.Failure? ==> r.error == Text("invalid int64 string: " + str)
  {
    match StrConv.ParseInt(str, 64, "ParseInt")
    case Success(v) => Success(v)
    case Failure(_) => Failure(Text("invalid int64 string: " + str))
  }

  /** Type.validate: None is a nil error. */
  function Validate(t: Type, str: string, json: Json): Option<Error> {
    match t
    case StringType => None
    case PasswordType => None
    case NonEmptyStringType =>
      if |GoStrings.TrimSpace(str)| == 0 then Some(ErrorStringValueIsEmpty) else None
    case IntType => ErrorOf(ParseIntValue(str))
    case PortType =>
      (match StrConv.Atoi(str)
       case Failure(e) => Some(e)
       case Success(v) =>
         if v < 0 then Some(Text("network port should be greater than 0"))
         else if v > 65535 then Some(Text("network port should be less than 65535"))
         else None)
    case Int64Type => ErrorOf(ParseInt64Value(str))
    case BoolType => ErrorOf(StrConv.ParseBool(str))
    case MapType => if json.isObject(str) then None else Some(JsonError(str))
    case StringToStringMapType => if json.stringMap(str).Some? then None else Some(JsonError(str))
    case QuotaType =>
      (match ParseInt64Value(str)
       case Failure(e) => Some(e)
       case Success(v) =>
         if v <= 0 && v != -1 then Some(Text("quota value should be -1 or great than zero")) else None)
  }

  /** Type.get: the typed value, or the error of the conversion. */
  function Get(t: Type, str: string, json: Json): Result<Value, Error> {
    match t
    case StringType => Success(StrV(str))
    case NonEmptyStringType => Success(StrV(str))
    case PasswordType => Success(StrV(str))
    case IntType => MapValue(ParseIntValue(str), v => IntV(v))
    case PortType => MapValue(ParseIntValue(str), v => IntV(v))
    case Int64Type => MapValue(ParseInt64Value(str), v => Int64V(v))
    case QuotaType => MapValue(ParseInt64Value(str), v => Int64V(v))
    case BoolType => MapValue(StrConv.ParseBool(str), b => BoolV(b))
    case MapType => if json.isObject(str) then Success(ObjectV) else Failure(JsonError(str))
    case StringToStringMapType =>
      match json.stringMap(str)
      case Some(m) => Success(StrMapV(m))
      case None => Failure(JsonError(str))
  }

  /** The decoding error of json.Unmarshal, whose text the model does not fix. */
  function JsonError(str: string): Error {
    Text("invalid JSON object: " + str)
  }

  function ErrorOf<T>(r: Result<T, Error>): (e: Option<Error>)
    ensures e.None? <==> r.Success?
    ensures r.Failure? ==> e == Some(r.error)
  {
    match r
    case Success(_) => None
    case Failure(err) => Some(err)
  }

  function MapValue<T>(r: Result<T, Error>, f: T -> Value): (m: Result<Value, Error>)
    ensures m.Success? <==> r.Success?
    ensures r.Success? ==> m.value == f(r.value)
    ensures r.Failure? ==> m.error == r.error
  {
    match r
    case Success(v) => Success(f(v))
    case Failure(err) => Failure(err)
  }

  /** String and password items accept every string and get it back unchanged. */
  lemma StringTypesAcceptAll(t: Type, str: string, json: Json)
    requires t == StringType || t == PasswordType
    ensures Validate(t, str, json).None?
    ensures Get(t, str, json) == Success(StrV(str))
  {
  }

  /** A non-empty string item rejects exactly the strings made only of white
      space, and gets every string unchanged. */
  lemma NonEmptyRejectsBlank(str: string, json: Json)
    ensures Validate(NonEmptyStringType, str, json).Some?
        <==> forall i :: 0 <= i < |str| ==> GoStrings.IsSpace(str[i])
    ensures Validate(NonEmptyStringType, str, json).Some? ==>
        Validate(NonEmptyStringType, str, json) == Some(ErrorStringValueIsEmpty)
    ensures Get(NonEmptyStringType, str, json) == Success(StrV(str))
  {
    GoStrings.TrimEmptyIff(str, GoStrings.IsSpace);
  }

  /** A port item accepts exactly the decimal integers from 0 through 65535. */
  lemma PortAcceptsExactly(str: string, json: Json)
    ensures Validate(PortType, str, json).None?
        <==> StrConv.ParseDecimal(str).Some? && 0 <= StrConv.ParseDecimal(str).value <= 65535
  {
  }

  /** A quota item accepts -1 and the positive int64 values; 0 and every other
      negative value are rejected. */
  lemma QuotaAcceptsExactly(str: string, json: Json)
    ensures Validate(QuotaType, str, json).None?
        <==> (var p := StrConv.ParseDecimal(str);
              p.Some? && StrConv.InRange(p.value, 64) && (p.value == -1 || p.value > 0))
  {
  }

  /** For the types whose validate only tries the conversion, validation fails
      exactly when the conversion does. */
  lemma ValidateIffGet(t: Type, str: string, json: Json)
    requires t in {IntType, Int64Type, BoolType, MapType, StringToStringMapType}
    ensures Validate(t, str, json).None? <==> Get(t, str, json).Success?
  {
  }

  /** Whatever validate accepts, get converts. */
  lemma ValidImpliesGet(t: Type, str: string, json: Json)
    requires Validate(t, str, json).None?
    ensures Get(t, str, json).Success?
  {
    if t == PortType {
      var v := StrConv.ParseDecimal(str).value;
      assert StrConv.InRange(v, 32);
    }
  }

  /** The dynamic type of what get returns depends only on the item type:
      the int types give an int, the int64 types an int64, and so on. */
  lemma GetValueKind(t: Type, str: string, json: Json)
    requires Get(t, str, json).Success?
    ensures var v := Get(t, str, json).value;
      (t in {StringType, NonEmptyStringType, PasswordType} <==> v.StrV?)
      && (t in {IntType, PortType} <==> v.IntV?)
      && (t in {Int64Type, QuotaType} <==> v.Int64V?)
      && (t == BoolType <==> v.BoolV?)
      && (t == MapType <==> v.ObjectV?)
      && (t == StringToStringMapType <==> v.StrMapV?)
  {
  }

  /** A decimal rendering of an integer within the bit range parses to that
      integer; a string that is not decimal fails with the message naming it. */
  lemma ParseIntDecimal(n: int, str: string)
    ensures StrConv.InRange(n, 32) ==> ParseIntValue(StrConv.FormatInt(n)) == Success(n)
    ensures StrConv.InRange(n, 64) ==> ParseInt64Value(StrConv.FormatInt(n)) == Success(n)
    ensures StrConv.ParseDecimal(str).None? ==>
      ParseIntValue(str) == Failure(Text("invalid int string: " + str))
      && ParseInt64Value(str) == Failure(Text("invalid int64 string: " + str))
  {
    if StrConv.InRange(n, 32) { StrConv.ParseFormatRoundTrip(n, 32); }
    if StrConv.InRange(n, 64) { StrConv.ParseFormatRoundTrip(n, 64); }
  }
}
