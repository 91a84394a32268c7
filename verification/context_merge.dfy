/** The extra-context merge of `DirectTemplateView.get_context_data`: every
    entry of a configured extra-context mapping is copied into the template
    context produced by the framework, a callable entry being replaced by
    the result of calling it. */
module ContextMerge {
  import opened Values

  /** One value of an extra-context mapping. `Producer` is a callable; since
      calling it runs foreign code, the model carries the value that the
      call returns for the current request. */
  datatype Entry =
    | Static(value: Value)
    | Producer(result: Value)

  /** What `context[key]` becomes for one entry: the call's result for a
      callable, the value itself otherwise. */
  function Resolve(e: Entry): Value
  {
    match e
    case Static(v) => v
    case Producer(r) => r
  }

  /** The context that the merge must produce from `base`, stated key by key. */
  function Merged(base: map<string, Value>, extra: Option<map<string, Entry>>): (r: map<string, Value>)
    ensures extra.None? ==> r == base
    ensures extra.Some? ==> r.Keys == base.Keys + extra.value.Keys
    ensures extra.Some? ==> forall k :: k in extra.value ==> r[k] == Resolve(extra.value[k])
    ensures extra.Some? ==> forall k :: k in base && k !in extra.value ==> r[k] == base[k]
  {
    match extra
    case None => base
    case Some(e) => map k | k in base.Keys + e.Keys :: if k in e then Resolve(e[k]) else base[k]
  }

  /** A template view whose class attribute `extra_context` (possibly `None`)
      is merged into every context it renders. */
  class DirectTemplateView {
    const extraContext: Option<map<string, Entry>>

    constructor (extraContext: Option<map<string, Entry>>)
      ensures this.extraContext == extraContext
    {
      this.extraContext := extraContext;
    }

    /** `get_context_data`: start from the framework's context `base` and
        overwrite it entry by entry, visiting the keys of `extra_context` in
        an arbitrary order, as a Python dictionary does. */
    method GetContextData(base: map<string, Value>) returns (context: map<string, Value>)
      ensures context == Merged(base, extraContext)
    {
      context := base;
      if extraContext.Some? {
        var extra := extraContext.value;
        var pending := extra.Keys;
        while pending != {}
          invariant pending <= extra.Keys
          invariant context.Keys == base.Keys + (extra.Keys - pending)
          invariant forall k :: k in extra && k !in pending ==> context[k] == Resolve(extra[k])
          invariant forall k :: k in base && k !in extra ==> context[k] == base[k]
          invariant forall k :: k in base && k in pending ==> context[k] == base[k]
          decreases pending
        {
          var key :| key in pending;
          match extra[key] {
            case Producer(result) =>
              context := context[key := result];
            case Static(value) =>
              context := context[key := value];
          }
          pending := pending - {key};
        }
      }
    }
  }

  /** An absent extra context and an empty one both leave the base context as it is. */
  lemma EmptyExtraIsIdentity(base: map<string, Value>)
    ensures Merged(base, Some(map[])) == base
  {
  }

  /** An example: base `{a: 1}` and extra `{b: <callable returning 2>, c: 3}`
      give `{a: 1, b: 2, c: 3}`. */
  lemma MergeExample()
    ensures Merged(map["a" := Int(1)], Some(map["b" := Producer(Int(2)), "c" := Static(Int(3))]))
         == map["a" := Int(1), "b" := Int(2), "c" := Int(3)]
  {
  }
}
