/** Query-parameter cleaning in the job service (the customer and stock
    movement services carry identical copies): empty parameters are dropped
    before a list request is made. */
module JobService {
  import opened Wrappers
  import opened Types

  /** The values the cleaning drops: `undefined`, `null` and the empty string. */
  predicate IsBlank(v: JsValue) {
    v.Undefined? || v.Null? || v == Str("")
  }

  /** The cleaned parameter record, as a specification. */
  function Cleaned(params: map<string, JsValue>): (r: map<string, JsValue>)
    ensures forall k :: k in r <==> k in params && !IsBlank(params[k])
    ensures forall k :: k in r ==> r[k] == params[k]
  {
    map k | k in params && !IsBlank(params[k]) :: params[k]
  }

  /** `cleanParams`: copy every key whose value is not blank, one key at a time. */
  method CleanParams(params: map<string, JsValue>) returns (cleaned: map<string, JsValue>)
    ensures cleaned == Cleaned(params)
  {
    cleaned := map[];
    var todo := params.Keys;
    while todo != {}
      invariant todo <= params.Keys
      invariant cleaned == map k | k in params.Keys - todo && !IsBlank(params[k]) :: params[k]
      decreases |todo|
    {
      var key :| key in todo;
      if !IsBlank(params[key]) {
        cleaned := cleaned[key := params[key]];
      }
      todo := todo - {key};
    }
  }

  /** Cleaning twice is cleaning once. */
  lemma CleanedIdempotent(params: map<string, JsValue>)
    ensures Cleaned(Cleaned(params)) == Cleaned(params)
  {
  }

  /** The falsy values 0 and `false` are kept, with their values. */
  lemma CleanedKeepsZeroAndFalse(params: map<string, JsValue>, k: string)
    requires k in params && (params[k] == Num(0.0) || params[k] == Bool(false))
    ensures k in Cleaned(params) && Cleaned(params)[k] == params[k]
  {
  }

  /** Only keys already present come out. */
  lemma CleanedKeysSubset(params: map<string, JsValue>)
    ensures Cleaned(params).Keys <= params.Keys
  {
  }

  /** The parameters `getAll` sends: the cleaned filters, or none at all. */
  function GetAllParams(filters: Option<map<string, JsValue>>): (r: map<string, JsValue>)
    ensures filters.None? ==> r == map[]
    ensures filters.Some? ==> r == Cleaned(filters.value)
  {
    match filters
    case None => map[]
    case Some(f) => Cleaned(f)
  }
}
