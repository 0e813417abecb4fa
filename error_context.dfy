/**
 * errors/context.py: `ErrorContext`, the mutable record attached to every
 * analyzer error, and the three factories that fill it in.
 */
module ErrorContexts {
  import opened Wrappers
  import opened Text
  import opened Validation

  /** A value carried in a context (`Any` in the source); absent values are `None`. */
  datatype Value = Text(text: string) | Number(number: int) | Flag(flag: bool)

  /** An insertion-ordered dictionary of extra information. */
  type Info = seq<(string, Value)>

  /** `info.get(key)`: the value of the first entry with that key. */
  function Get(info: Info, key: string): (r: Option<Value>)
    ensures r.Some? <==> exists i :: 0 <= i < |info| && info[i].0 == key
  {
    if info == [] then None
    else if info[0].0 == key then Some(info[0].1)
    else
      var rest := Get(info[1..], key);
      assert forall i :: 0 < i < |info| ==> info[i] == info[1..][i - 1];
      rest
  }

  /** The value found is that of the first entry carrying the key. */
  lemma {:induction false} GetFirstMatch(info: Info, key: string, i: nat)
    requires i < |info| && info[i].0 == key
    requires forall j :: 0 <= j < i ==> info[j].0 != key
    ensures Get(info, key) == Some(info[i].1)
    decreases i
  {
    if i > 0 {
      assert info[1..][i - 1] == info[i];
      forall j | 0 <= j < i - 1 ensures info[1..][j].0 != key {
        assert info[1..][j] == info[j + 1];
      }
      GetFirstMatch(info[1..], key, i - 1);
    }
  }

  /** `info[key] = value`: an existing key keeps its place, a new one goes last. */
  function Put(info: Info, key: string, value: Value): (r: Info)
    ensures Get(r, key) == Some(value)
    ensures forall k :: k != key ==> Get(r, k) == Get(info, k)
    ensures Get(info, key).None? ==> r == info + [(key, value)]
    ensures Get(info, key).Some? ==> |r| == |info| && forall i :: 0 <= i < |r| ==> r[i].0 == info[i].0
  {
    if info == [] then [(key, value)]
    else if info[0].0 == key then [(key, value)] + info[1..]
    else [info[0]] + Put(info[1..], key, value)
  }

  /** One value of the dictionary `to_dict` returns. */
  datatype Logged =
    | LoggedText(text: string)
    | LoggedValue(value: Value)
    /** `str(self.additional_info)`, kept as the entries themselves. */
    | LoggedInfo(info: Info)

  /** The keys `to_dict` may write; `KeyName` is the string each is written under. */
  datatype LogKey = OperationKey | FieldKey | ValueKey | StatusCodeKey | RetryAfterKey | AdditionalInfoKey

  function KeyName(k: LogKey): string {
    match k
    case OperationKey => "operation"
    case FieldKey => "field"
    case ValueKey => "value"
    case StatusCodeKey => "status_code"
    case RetryAfterKey => "retry_after"
    case AdditionalInfoKey => "additional_info"
  }

  /**
   * What `to_dict` yields for these fields: an entry for every field that is
   * set (a truthy operation, field or info dictionary; any value, status or
   * retry delay that is not `None`), numbers as their decimal text. No other
   * key can appear, since the keys are `LogKey`s.
   */
  function ContextDict(operation: Option<string>, field: Option<string>, value: Option<Value>,
                       statusCode: Option<int>, retryAfter: Option<int>, info: Option<Info>): (r: map<LogKey, Logged>)
    ensures OperationKey in r <==> Truthy(operation)
    ensures FieldKey in r <==> Truthy(field)
    ensures ValueKey in r <==> value.Some?
    ensures StatusCodeKey in r <==> statusCode.Some?
    ensures RetryAfterKey in r <==> retryAfter.Some?
    ensures AdditionalInfoKey in r <==> info.Some? && info.value != []
    ensures OperationKey in r ==> r[OperationKey] == LoggedText(operation.value)
    ensures FieldKey in r ==> r[FieldKey] == LoggedText(field.value)
    ensures ValueKey in r ==> r[ValueKey] == LoggedValue(value.value)
    ensures StatusCodeKey in r ==> r[StatusCodeKey] == LoggedText(IntToString(statusCode.value))
    ensures RetryAfterKey in r ==> r[RetryAfterKey] == LoggedText(IntToString(retryAfter.value))
    ensures AdditionalInfoKey in r ==> r[AdditionalInfoKey] == LoggedInfo(info.value)
  {
    map k | k in AllKeys && Logs(k, operation, field, value, statusCode, retryAfter, info).Some?
          :: Logs(k, operation, field, value, statusCode, retryAfter, info).value
  }

  const AllKeys := {OperationKey, FieldKey, ValueKey, StatusCodeKey, RetryAfterKey, AdditionalInfoKey}

  /** The entry `to_dict` writes under `k`, if any. */
  function Logs(k: LogKey, operation: Option<string>, field: Option<string>, value: Option<Value>,
                statusCode: Option<int>, retryAfter: Option<int>, info: Option<Info>): Option<Logged> {
    match k
    case OperationKey => if Truthy(operation) then Some(LoggedText(operation.value)) else None
    case FieldKey => if Truthy(field) then Some(LoggedText(field.value)) else None
    case ValueKey => if value.Some? then Some(LoggedValue(value.value)) else None
    case StatusCodeKey => if statusCode.Some? then Some(LoggedText(IntToString(statusCode.value))) else None
    case RetryAfterKey => if retryAfter.Some? then Some(LoggedText(IntToString(retryAfter.value))) else None
    case AdditionalInfoKey => if info.Some? && info.value != [] then Some(LoggedInfo(info.value)) else None
  }

  class ErrorContext {
    var operation: Option<string>
    var field: Option<string>
    var value: Option<Value>
    var statusCode: Option<int>
    var retryAfter: Option<int>
    var additionalInfo: Option<Info>

    /** The dataclass constructor; every field defaults to `None`. */
    constructor(operation: Option<string>, field: Option<string>, value: Option<Value>,
                statusCode: Option<int>, retryAfter: Option<int>, additionalInfo: Option<Info>)
      ensures this.operation == operation && this.field == field && this.value == value
      ensures this.statusCode == statusCode && this.retryAfter == retryAfter
      ensures this.additionalInfo == additionalInfo
    {
      this.operation := operation;
      this.field := field;
      this.value := value;
      this.statusCode := statusCode;
      this.retryAfter := retryAfter;
      this.additionalInfo := additionalInfo;
    }

    /** `to_dict` */
    function ToDict(): (r: map<LogKey, Logged>)
      reads this
    {
      ContextDict(operation, field, value, statusCode, retryAfter, additionalInfo)
    }

    /** `has_retry_info` */
    predicate HasRetryInfo()
      reads this
      ensures HasRetryInfo() <==> RetryAfterKey in ToDict()
    {
      retryAfter.Some?
    }

    /** `get_retry_delay`; it is logged as its decimal text. */
    function GetRetryDelay(): (r: Option<int>)
      reads this
      ensures r.Some? <==> HasRetryInfo()
      ensures r.Some? ==> ToDict()[RetryAfterKey] == LoggedText(IntToString(r.value))
    {
      retryAfter
    }

    /**
     * `add_info`: creates the dictionary when there is none; afterwards the
     * key maps to the value, every other key is untouched, and the
     * dictionary shows up in `to_dict`.
     */
    method AddInfo(key: string, v: Value)
      modifies this
      ensures additionalInfo == Some(Put(if old(additionalInfo).Some? then old(additionalInfo).value else [], key, v))
      ensures operation == old(operation) && field == old(field) && value == old(value)
      ensures statusCode == old(statusCode) && retryAfter == old(retryAfter)
      ensures Get(additionalInfo.value, key) == Some(v)
      ensures AdditionalInfoKey in ToDict()
    {
      if additionalInfo.None? {
        additionalInfo := Some([]);
      }
      additionalInfo := Some(Put(additionalInfo.value, key, v));
    }
  }

  /** `kwargs if kwargs else None` */
  function Extras(kwargs: Info): (r: Option<Info>)
    ensures r.None? <==> kwargs == []
    ensures r.Some? ==> r.value == kwargs
  {
    if kwargs == [] then None else Some(kwargs)
  }

  /** `create_api_context` */
  method CreateApiContext(operation: string, statusCode: Option<int>, retryAfter: Option<int>, kwargs: Info)
    returns (c: ErrorContext)
    ensures fresh(c)
    ensures c.operation == Some(operation) && c.field.None? && c.value.None?
    ensures c.statusCode == statusCode && c.retryAfter == retryAfter && c.additionalInfo == Extras(kwargs)
  {
    c := new ErrorContext(Some(operation), None, None, statusCode, retryAfter, Extras(kwargs));
  }

  /** `create_validation_context` */
  method CreateValidationContext(field: string, value: Option<Value>, operation: Option<string>, kwargs: Info)
    returns (c: ErrorContext)
    ensures fresh(c)
    ensures c.operation == operation && c.field == Some(field) && c.value == value
    ensures c.statusCode.None? && c.retryAfter.None? && c.additionalInfo == Extras(kwargs)
  {
    c := new ErrorContext(operation, Some(field), value, None, None, Extras(kwargs));
  }

  /** `create_network_context` */
  method CreateNetworkContext(operation: string, kwargs: Info) returns (c: ErrorContext)
    ensures fresh(c)
    ensures c.operation == Some(operation) && c.field.None? && c.value.None?
    ensures c.statusCode.None? && c.retryAfter.None? && c.additionalInfo == Extras(kwargs)
  {
    c := new ErrorContext(Some(operation), None, None, None, None, Extras(kwargs));
  }

  /** An empty context logs nothing; an API context always logs its operation. */
  lemma {:induction false} ContextDictEmpty(operation: string, statusCode: Option<int>)
    ensures ContextDict(None, None, None, None, None, None) == map[]
    ensures operation != [] ==> ContextDict(Some(operation), None, None, statusCode, None, None).Keys
                                == if statusCode.Some? then {OperationKey, StatusCodeKey} else {OperationKey}
  {
  }
}
