/** A configured value and its typed accessors (config/value.go). Every lookup
    goes to the metadata singleton; here `meta` is that table's contents. */
module ConfigValue {
  import opened Wrappers
  import opened Errors
  import opened ConfigTypes
  import opened ConfigMetadata

  const ErrorNotDefined := Text("configure item is not defined in metadata")

  /** What `get` yields for a name under the current table, if it is defined. */
  function Typed(meta: map<string, Item>, name: string, value: string, json: Json): Option<Result<Value, Error>> {
    if name in meta then Some(Get(meta[name].itemType, value, json)) else None
  }

  class ConfigureValue {
    var Name: string
    var Value: string

    constructor ()
      ensures Name == "" && Value == ""
    {
      Name, Value := "", "";
    }

    /** Set: store name and value only when the name is defined and the value
        passes its type's validation; otherwise leave the receiver as it was. */
    method Set(name: string, value: string, meta: map<string, Item>, json: Json) returns (err: Option<Error>)
      modifies this
      ensures name !in meta ==> err == Some(ErrorNotDefined)
      ensures name in meta ==> err == ConfigTypes.Validate(meta[name].itemType, value, json)
      ensures err.None? ==> Name == name && Value == value
      ensures err.Some? ==> Name == old(Name) && Value == old(Value)
    {
      if name in meta {
        var item := meta[name];
        err := ConfigTypes.Validate(item.itemType, value, json);
        if err.None? {
          Name, Value := name, value;
        }
      } else {
        err := Some(ErrorNotDefined);
      }
    }

    /** GetString: the raw value when the name is defined, "" otherwise. */
    function GetString(meta: map<string, Item>): (r: string)
      reads this
      ensures Name in meta ==> r == Value
      ensures Name !in meta ==> r == ""
    {
      if Name in meta then Value else ""
    }

    /** GetPassword: the same lookup as GetString. */
    function GetPassword(meta: map<string, Item>): (r: string)
      reads this
      ensures r == GetString(meta)
    {
      if Name in meta then Value else ""
    }

    /** GetInt: the int get yields, or 0 when the name is undefined, get fails or
        yields another dynamic type. */
    function GetInt(meta: map<string, Item>, json: Json): (r: int)
      reads this
      ensures Typed(meta, Name, Value, json) == Some(Success(IntV(r)))
        || (r == 0 && forall v :: Typed(meta, Name, Value, json) != Some(Success(IntV(v))))
    {
      if Name in meta then
        match Get(meta[Name].itemType, Value, json)
        case Success(IntV(v)) => v
        case _ => 0
      else 0
    }

    /** GetInt64: the int64 get yields, or 0 otherwise. */
    function GetInt64(meta: map<string, Item>, json: Json): (r: int)
      reads this
      ensures Typed(meta, Name, Value, json) == Some(Success(Int64V(r)))
        || (r == 0 && forall v :: Typed(meta, Name, Value, json) != Some(Success(Int64V(v))))
    {
      if Name in meta then
        match Get(meta[Name].itemType, Value, json)
        case Success(Int64V(v)) => v
        case _ => 0
      else 0
    }

    /** GetBool: the bool get yields, or false otherwise. */
    function GetBool(meta: map<string, Item>, json: Json): (r: bool)
      reads this
      ensures Typed(meta, Name, Value, json) == Some(Success(BoolV(r)))
        || (!r && forall b :: Typed(meta, Name, Value, json) != Some(Success(BoolV(b))))
    {
      if Name in meta then
        match Get(meta[Name].itemType, Value, json)
        case Success(BoolV(b)) => b
        case _ => false
      else false
    }

    /** GetStringToStringMap: the map get yields, or an empty map otherwise. */
    function GetStringToStringMap(meta: map<string, Item>, json: Json): (r: map<string, string>)
      reads this
      ensures Typed(meta, Name, Value, json) == Some(Success(StrMapV(r)))
        || (r == map[] && forall m :: Typed(meta, Name, Value, json) != Some(Success(StrMapV(m))))
    {
      if Name in meta then
        match Get(meta[Name].itemType, Value, json)
        case Success(StrMapV(m)) => m
        case _ => map[]
      else map[]
    }

    /** GetAnyType: get's result, or ErrorNotDefined for an undefined name. */
    function GetAnyType(meta: map<string, Item>, json: Json): (r: Result<Value, Error>)
      reads this
      ensures Name !in meta ==> r == Failure(ErrorNotDefined)
      ensures Name in meta ==> Typed(meta, Name, Value, json) == Some(r)
    {
      if Name in meta then Get(meta[Name].itemType, Value, json) else Failure(ErrorNotDefined)
    }

    /** Validate: the type's verdict, or ErrorNotDefined for an undefined name. */
    function Validate(meta: map<string, Item>, json: Json): (r: Option<Error>)
      reads this
      ensures Name !in meta ==> r == Some(ErrorNotDefined)
      ensures Name in meta ==> r == ConfigTypes.Validate(meta[Name].itemType, Value, json)
    {
      if Name in meta then ConfigTypes.Validate(meta[Name].itemType, Value, json) else Some(ErrorNotDefined)
    }
  }

  /** NewConfigureValue: a value that passed Set, or on error one that keeps the
      name (for tracing) with an empty value. */
  method NewConfigureValue(name: string, value: string, meta: map<string, Item>, json: Json)
    returns (c: ConfigureValue, err: Option<Error>)
    ensures fresh(c)
    ensures name !in meta ==> err == Some(ErrorNotDefined)
    ensures name in meta ==> err == ConfigTypes.Validate(meta[name].itemType, value, json)
    ensures c.Name == name
    ensures c.Value == if err.None? then value else ""
  {
    c := new ConfigureValue();
    err := c.Set(name, value, meta, json);
    if err.Some? {
      c.Name := name;
    }
  }

  /** A value accepted by Set always validates afterwards and converts with get. */
  lemma SetValueValidates(meta: map<string, Item>, name: string, value: string, json: Json)
    requires name in meta
    requires ConfigTypes.Validate(meta[name].itemType, value, json).None?
    ensures Typed(meta, name, value, json).Some? && Typed(meta, name, value, json).value.Success?
  {
    ValidImpliesGet(meta[name].itemType, value, json);
  }

  /** An int64 item never yields a value through GetInt: the dynamic type does not match. */
  lemma Int64NotAnInt(meta: map<string, Item>, name: string, value: string, json: Json, v: int)
    requires name in meta && meta[name].itemType in {Int64Type, QuotaType}
    ensures Typed(meta, name, value, json) != Some(Success(IntV(v)))
  {
  }
}
