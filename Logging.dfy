/**
 * The request logger's parameter sanitiser: before parameters are logged, the values of
 * sensitive keys are masked, nested objects are sanitised recursively and long lists are
 * replaced by their length.
 */
module Logging {
  import opened JsonValues
  import opened Text

  /** Keys whose values are never logged, compared after lower-casing. */
  const SensitiveKeys: set<string> := {"password", "token", "key", "secret"}

  /** Lists longer than this are logged as their length only. */
  const ListLimit := 10

  const Mask := "***"

  predicate IsSensitive(key: string) {
    Lower(key) in SensitiveKeys
  }

  /** The text a long list is logged as: `[n items]`. */
  function ItemsSummary(n: nat): string {
    "[" + NatToString(n) + " items]"
  }

  /** The logged form of the value stored under `key`. */
  function SanitizeEntry(key: string, value: Json): Json
    decreases value
  {
    if IsSensitive(key) then JStr(Mask)
    else match value
      case JObject(fields) => JObject(map k | k in fields :: SanitizeEntry(k, fields[k]))
      case JList(items) => if |items| > ListLimit then JStr(ItemsSummary(|items|)) else value
      case _ => value
  }

  /** The logged form of a parameter dict: a new dict with the same keys. */
  function Sanitized(params: map<string, Json>): (r: map<string, Json>)
    ensures r.Keys == params.Keys
  {
    map k | k in params :: SanitizeEntry(k, params[k])
  }

  /**
   * What may be logged under `key`: the mask for a sensitive key, otherwise no list longer than
   * the limit and, inside objects, only entries that may be logged themselves.
   */
  ghost predicate Redacted(key: string, value: Json)
    decreases value
  {
    if IsSensitive(key) then value == JStr(Mask)
    else match value
      case JObject(fields) => forall k | k in fields :: Redacted(k, fields[k])
      case JList(items) => |items| <= ListLimit
      case _ => true
  }

  /** `_sanitize_params`: fills a fresh dict key by key, recursing into nested dicts. */
  method SanitizeParams(params: map<string, Json>) returns (sanitized: map<string, Json>)
    ensures sanitized == Sanitized(params)
    decreases JObject(params)
  {
    sanitized := map[];
    var keys := params.Keys;
    while keys != {}
      invariant keys <= params.Keys
      invariant sanitized.Keys == params.Keys - keys
      invariant forall k | k in sanitized :: sanitized[k] == SanitizeEntry(k, params[k])
      decreases keys
    {
      var key :| key in keys;
      var value := params[key];
      var logged;
      if Lower(key) in SensitiveKeys {
        logged := JStr(Mask);
      } else if value.JObject? {
        var inner := SanitizeParams(value.fields);
        logged := JObject(inner);
      } else if value.JList? && |value.items| > ListLimit {
        logged := JStr(ItemsSummary(|value.items|));
      } else {
        logged := value;
      }
      sanitized := sanitized[key := logged];
      keys := keys - {key};
    }
  }

  /** Every sanitised parameter may be logged, at every depth. */
  lemma {:induction false} SanitizeRedacts(key: string, value: Json)
    ensures Redacted(key, SanitizeEntry(key, value))
    decreases value
  {
    if !IsSensitive(key) && value.JObject? {
      var fields := value.fields;
      forall k | k in fields
        ensures Redacted(k, SanitizeEntry(k, fields[k]))
      {
        SanitizeRedacts(k, fields[k]);
      }
    }
  }

  /** A value that may already be logged is logged unchanged. */
  lemma {:induction false} RedactedUnchanged(key: string, value: Json)
    requires Redacted(key, value)
    ensures SanitizeEntry(key, value) == value
    decreases value
  {
    if !IsSensitive(key) && value.JObject? {
      var fields := value.fields;
      forall k | k in fields
        ensures SanitizeEntry(k, fields[k]) == fields[k]
      {
        RedactedUnchanged(k, fields[k]);
      }
      assert (map k | k in fields :: SanitizeEntry(k, fields[k])) == fields;
    }
  }

  /** Sanitising twice logs the same as sanitising once. */
  lemma {:induction false} SanitizeIdempotent(params: map<string, Json>)
    ensures Sanitized(Sanitized(params)) == Sanitized(params)
  {
    var once := Sanitized(params);
    forall k | k in once
      ensures SanitizeEntry(k, once[k]) == once[k]
    {
      SanitizeRedacts(k, params[k]);
      RedactedUnchanged(k, once[k]);
    }
  }

  /**
   * The masking at the top level and for nested dicts: a sensitive key is masked whatever its
   * value, a long list becomes its length, and other non-dict values pass through.
   */
  lemma {:induction false} SanitizedEntries(params: map<string, Json>, k: string)
    requires k in params
    ensures IsSensitive(k) ==> Sanitized(params)[k] == JStr(Mask)
    ensures !IsSensitive(k) && params[k].JObject? ==> Sanitized(params)[k] == JObject(Sanitized(params[k].fields))
    ensures !IsSensitive(k) && params[k].JList? && |params[k].items| > ListLimit
            ==> Sanitized(params)[k] == JStr(ItemsSummary(|params[k].items|))
    ensures !IsSensitive(k) && !params[k].JObject? && !(params[k].JList? && |params[k].items| > ListLimit)
            ==> Sanitized(params)[k] == params[k]
  {
  }

  /** Sensitivity does not depend on letter case. */
  lemma {:induction false} SensitiveIgnoresCase(key: string)
    ensures IsSensitive(Lower(key)) <==> IsSensitive(key)
  {
    LowerIdempotent(key);
  }
}
