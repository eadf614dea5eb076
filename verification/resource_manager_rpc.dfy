/**
 * The option keys of the Resource Manager RPC interface: a closed set of keys,
 * each with the name of the query parameter it becomes on the wire, and typed
 * lookups into the option map that every RPC call receives.
 */
module ResourceManagerRpc {
  import W = Wrappers

  /**
   * A value stored in an option map. The callers store strings (filter, fields,
   * page token) and integers (page size).
   */
  datatype OptionValue = StringValue(s: string) | IntValue(i: W.int32)

  /** The `Option` enumeration. */
  datatype Option = FILTER | FIELDS | PAGE_SIZE | PAGE_TOKEN
  {
    /** `value()`: the wire query-parameter name of the key. */
    function Value(): (r: string)
      ensures |r| > 0
    {
      match this
      case FILTER => "filter"
      case FIELDS => "fields"
      case PAGE_SIZE => "pageSize"
      case PAGE_TOKEN => "pageToken"
    }

    /** `get`: the entry stored under this key, absent when the key is not in the map. */
    function Get(options: map<Option, OptionValue>): (r: W.Option<OptionValue>)
      ensures r.Some? <==> this in options
      ensures r.Some? ==> r.value == options[this]
    {
      if this in options then W.Some(options[this]) else W.None
    }

    /** `getString`: what `get` returns, seen as a string (the stored value must be one). */
    function GetString(options: map<Option, OptionValue>): (r: W.Option<string>)
      requires this in options ==> options[this].StringValue?
      ensures Get(options) == (if r.Some? then W.Some(StringValue(r.value)) else W.None)
    {
      match Get(options)
      case None => W.None
      case Some(v) => W.Some(v.s)
    }

    /** `getInt`: what `get` returns, seen as an integer (the stored value must be one). */
    function GetInt(options: map<Option, OptionValue>): (r: W.Option<W.int32>)
      requires this in options ==> options[this].IntValue?
      ensures Get(options) == (if r.Some? then W.Some(IntValue(r.value)) else W.None)
    {
      match Get(options)
      case None => W.None
      case Some(v) => W.Some(v.i)
    }
  }

  /** The four keys and their wire names. */
  lemma ValueTable()
    ensures FILTER.Value() == "filter" && FIELDS.Value() == "fields"
    ensures PAGE_SIZE.Value() == "pageSize" && PAGE_TOKEN.Value() == "pageToken"
  {
  }

  /** Distinct keys have distinct wire names. */
  lemma ValueInjective(a: Option, b: Option)
    ensures a.Value() == b.Value() <==> a == b
  {
  }

  /** Storing or removing an entry under another key does not change what a key's lookup returns. */
  lemma GetIgnoresOtherKeys(opt: Option, options: map<Option, OptionValue>, k: Option, v: OptionValue)
    requires k != opt
    ensures opt.Get(options[k := v]) == opt.Get(options)
    ensures opt.Get(options - {k}) == opt.Get(options)
  {
  }

  /** After storing `v` under a key, that key's lookup returns `v`. */
  lemma GetAfterStore(opt: Option, options: map<Option, OptionValue>, v: OptionValue)
    ensures opt.Get(options[opt := v]) == W.Some(v)
    ensures opt.Get(options - {opt}) == W.None
  {
  }
}
