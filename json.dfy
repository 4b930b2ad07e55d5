/**
 * What Go's encoding/json does when sum.go decodes the typedItem envelope:
 * a JSON value stands for the bytes after the syntax check, and the
 * envelope's one field "type" is filled from the object's members.
 */
module Json {
  import opened Wrappers

  /** A JSON value; a number keeps its literal text. */
  datatype Value =
    | Null
    | Bool(b: bool)
    | Number(literal: string)
    | Str(s: string)
    | Array(elements: seq<Value>)
    | Object(members: seq<Member>)

  /** One "key": value member of an object, in document order. */
  datatype Member = Member(key: string, value: Value)

  /** The bytes handed to UnmarshalJSON: not well-formed JSON, or a document holding one value. */
  datatype Raw = Malformed | Document(value: Value)

  /** The errors json.Unmarshal returns: *SyntaxError and *UnmarshalTypeError (JSON kind, key path of the field). */
  datatype JsonError = SyntaxError | UnmarshalTypeError(kind: string, field: string)

  /** The envelope sum.go decodes first: only the "type" tag. */
  datatype TypedItem = TypedItem(typ: string)

  /** The JSON kind UnmarshalTypeError names. */
  function Kind(v: Value): string
  {
    match v
    case Null => "null"
    case Bool(_) => "bool"
    case Number(_) => "number"
    case Str(_) => "string"
    case Array(_) => "array"
    case Object(_) => "object"
  }

  function Lower(c: char): char
  {
    if 'A' <= c <= 'Z' then ((c as int) + 32) as char else c
  }

  /**
   * The key matches the Go field tagged `json:"type"`: Go matches exact
   * names first and then ignoring case, and for "type" both come to this.
   */
  predicate NamesType(key: string)
  {
    |key| == 4 && Lower(key[0]) == 't' && Lower(key[1]) == 'y' && Lower(key[2]) == 'p' && Lower(key[3]) == 'e'
  }

  /** The values of the members that name "type", in document order. */
  function TypeValues(members: seq<Member>): seq<Value>
    decreases |members|
  {
    if members == [] then []
    else (if NamesType(members[0].key) then [members[0].value] else []) + TypeValues(members[1..])
  }

  /** A string value sets the field; null leaves it as it was; there are no others here. */
  function LastString(vs: seq<Value>): string
    decreases |vs|
  {
    if vs == [] then ""
    else match vs[|vs| - 1]
      case Str(s) => s
      case _ => LastString(vs[..|vs| - 1])
  }

  /** The first value a string field cannot take, as the error Go saves and returns at the end. */
  function FirstMistyped(vs: seq<Value>): (e: Option<JsonError>)
    ensures e.None? <==> forall i :: 0 <= i < |vs| ==> vs[i].Str? || vs[i].Null?
    ensures e.Some? ==> e.value.UnmarshalTypeError? && e.value.field == "type"
    decreases |vs|
  {
    if vs == [] then None
    else if vs[0].Str? || vs[0].Null? then FirstMistyped(vs[1..])
    else Some(UnmarshalTypeError(Kind(vs[0]), "type"))
  }

  /**
   * json.Unmarshal(data, &typedItem{}): a syntax error for malformed input;
   * for null, nothing set and no error; for any other non-object value a type
   * error; for an object, "type" is the last string given under that key (""
   * when there is none), unless some value under it is neither a string nor
   * null.
   */
  function DecodeTypedItem(raw: Raw): (r: Result<TypedItem, JsonError>)
    ensures r == Err(SyntaxError) <==> raw.Malformed?
    ensures raw == Document(Null) ==> r == Ok(TypedItem(""))
  {
    match raw
    case Malformed => Err(SyntaxError)
    case Document(Null) => Ok(TypedItem(""))
    case Document(Object(members)) =>
      var vs := TypeValues(members);
      if FirstMistyped(vs).Some? then Err(FirstMistyped(vs).value)
      else Ok(TypedItem(LastString(vs)))
    case Document(v) => Err(UnmarshalTypeError(Kind(v), ""))
  }

  /** An object with one "type" member holding a string yields exactly that string. */
  lemma SingleTypeMember(members: seq<Member>, j: nat, s: string)
    requires j < |members| && members[j] == Member("type", Str(s))
    requires forall i :: 0 <= i < |members| && i != j ==> !NamesType(members[i].key)
    ensures DecodeTypedItem(Document(Object(members))) == Ok(TypedItem(s))
  {
    SingleTypeValue(members, j, s);
    assert FirstMistyped([Str(s)]) == None;
    assert LastString([Str(s)]) == s;
  }

  lemma {:induction false} SingleTypeValue(members: seq<Member>, j: nat, s: string)
    requires j < |members| && members[j] == Member("type", Str(s))
    requires forall i :: 0 <= i < |members| && i != j ==> !NamesType(members[i].key)
    ensures TypeValues(members) == [Str(s)]
    decreases |members|
  {
    var tail := members[1..];
    assert forall i :: 0 <= i < |tail| ==> tail[i] == members[i + 1];
    if j == 0 {
      NoTypeKey(tail);
    } else {
      SingleTypeValue(tail, j - 1, s);
    }
  }

  /** Without a member naming "type" there is nothing to decode into the tag. */
  lemma {:induction false} NoTypeKey(members: seq<Member>)
    requires forall i :: 0 <= i < |members| ==> !NamesType(members[i].key)
    ensures TypeValues(members) == []
    ensures DecodeTypedItem(Document(Object(members))) == Ok(TypedItem(""))
    decreases |members|
  {
    if members != [] {
      assert forall i :: 0 <= i < |members[1..]| ==> members[1..][i] == members[i + 1];
      NoTypeKey(members[1..]);
    }
  }
}
