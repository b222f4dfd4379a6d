/**
 * The field descriptors of the API and the two custom ones it defines:
 * `MockField`, which always outputs its stored value, and `AttrField`, which
 * resolves a dotted attribute path with a None short-circuit and then applies
 * an optional post-processor.
 */
module Fields {
  import opened Values
  import opened Strings
  import opened PostProcessors

  /**
   * A descriptor of a fieldset. `Integer`, `String`, `DateTime` and `Nested`
   * are the Flask-RESTful built-ins; they are recorded (a fieldset's keys and
   * its nesting) but not evaluated. `Mock` and `Attr` are the custom fields.
   */
  datatype Field =
    | Integer
    | String
    | DateTime
    | Nested(fields: map<string, Field>)
    | Mock(mockValue: Value)
    | Attr(attr: string, postProcessor: Option<PostProcessor>)

  /** How the walk along the path ended: at a final value, or at an intermediate None. */
  datatype Walk = Reached(final: Value) | ShortCircuit

  /**
   * The loop over the segments after the first: stop at an intermediate
   * None, otherwise read the next segment off the current value.
   */
  function WalkRest(value: Value, rest: seq<string>): Result<Walk>
    decreases |rest|
  {
    if rest == [] then Ok(Reached(value))
    else if value.Null? then Ok(ShortCircuit)
    else match GetAttr(value, rest[0])
      case Err(e) => Err(e)
      case Ok(next) => WalkRest(next, rest[1..])
  }

  /** Split the path on '.', read the first segment off `obj`, walk the rest. */
  function Resolve(obj: Value, attr: string): Result<Walk>
  {
    var parts := Split(attr, '.');
    match GetAttr(obj, parts[0])
    case Err(e) => Err(e)
    case Ok(v) => WalkRest(v, parts[1..])
  }

  /**
   * `field.output(key, obj)` for the two custom fields: the mock value, or the
   * resolved path, None after a short-circuit, and otherwise the final value
   * passed through the post-processor when there is one.
   */
  function Output(f: Field, key: string, obj: Value): Result<Value>
    requires f.Mock? || f.Attr?
  {
    match f
    case Mock(v) => Ok(v)
    case Attr(attr, post) =>
      match Resolve(obj, attr)
      case Err(e) => Err(e)
      case Ok(ShortCircuit) => Ok(Null)
      case Ok(Reached(v)) => if post.None? then Ok(v) else Apply(post.value, v)
  }

  /**
   * `AttrField.output` as the source runs it: split, pop the first part,
   * read it, then loop over the remaining parts with an early return on None.
   */
  method AttrFieldOutput(attr: string, postProcessor: Option<PostProcessor>, key: string, obj: Value)
    returns (r: Result<Value>)
    ensures r == Output(Attr(attr, postProcessor), key, obj)
  {
    var parts := Split(attr, '.');
    var first := parts[0];
    parts := parts[1..];
    var got := GetAttr(obj, first);
    if got.Err? {
      return got;
    }
    var value := got.value;
    for i := 0 to |parts|
      invariant WalkRest(value, parts[i..]) == WalkRest(got.value, parts)
    {
      if value.Null? {
        return Ok(Null);
      }
      var next := GetAttr(value, parts[i]);
      if next.Err? {
        return next;
      }
      value := next.value;
      assert parts[i..][1..] == parts[i + 1..];
    }
    if postProcessor.Some? {
      return Apply(postProcessor.value, value);
    }
    return Ok(value);
  }

  /** A mock field outputs its stored value for every key and every object. */
  lemma MockOutput(v: Value, key: string, obj: Value)
    ensures Output(Mock(v), key, obj) == Ok(v)
  {
  }

  /**
   * A path without a dot is one `getattr`: without a post-processor its
   * result is the output, and with one the value read (None included) goes
   * through the post-processor; a missing attribute raises either way.
   */
  lemma SingleSegmentOutput(attr: string, post: Option<PostProcessor>, key: string, obj: Value)
    requires '.' !in attr
    ensures post.None? ==> Output(Attr(attr, post), key, obj) == GetAttr(obj, attr)
    ensures post.Some? && GetAttr(obj, attr).Ok? ==>
      Output(Attr(attr, post), key, obj) == Apply(post.value, GetAttr(obj, attr).value)
    ensures GetAttr(obj, attr).Err? ==> Output(Attr(attr, post), key, obj) == GetAttr(obj, attr)
  {
    SplitWithout(attr, '.');
  }

  // ---------------------------------------------------------------------
  // The guarded walk against the unguarded chain of reads

  lemma {:induction false} WalkRestShortCircuits(v: Value, rest: seq<string>, k: nat)
    requires k < |rest|
    requires Chain(v, rest[..k]) == Ok(Null)
    ensures WalkRest(v, rest) == Ok(ShortCircuit)
    decreases k
  {
    if k > 0 {
      assert rest[..k][0] == rest[0];
      assert rest[..k][1..] == rest[1..][..k - 1];
      WalkRestShortCircuits(GetAttr(v, rest[0]).value, rest[1..], k - 1);
    }
  }

  lemma {:induction false} WalkRestReaches(v: Value, rest: seq<string>)
    requires Chain(v, rest).Ok?
    ensures WalkRest(v, rest) == Ok(Reached(Chain(v, rest).value))
    decreases |rest|
  {
    if rest != [] {
      WalkRestReaches(GetAttr(v, rest[0]).value, rest[1..]);
    }
  }

  lemma {:induction false} WalkRestFails(v: Value, rest: seq<string>)
    requires Chain(v, rest).Err?
    requires forall k :: 0 <= k < |rest| ==> Chain(v, rest[..k]) != Ok(Null)
    ensures WalkRest(v, rest) == Err(Chain(v, rest).error)
    decreases |rest|
  {
    assert Chain(v, rest[..0]) == Ok(v);
    match GetAttr(v, rest[0])
    case Err(_) =>
    case Ok(next) =>
      forall k | 0 <= k < |rest[1..]|
        ensures Chain(next, rest[1..][..k]) != Ok(Null)
      {
        assert rest[..k + 1][0] == rest[0];
        assert rest[..k + 1][1..] == rest[1..][..k];
        assert Chain(v, rest[..k + 1]) == Chain(next, rest[1..][..k]);
      }
      WalkRestFails(next, rest[1..]);
  }

  /** Reading a non-empty prefix of the path is the first read followed by the rest of the prefix. */
  lemma ChainPrefix(obj: Value, parts: seq<string>, k: nat)
    requires 1 <= k <= |parts|
    requires GetAttr(obj, parts[0]).Ok?
    ensures Chain(obj, parts[..k]) == Chain(GetAttr(obj, parts[0]).value, parts[1..][..k - 1])
  {
    assert parts[..k][0] == parts[0];
    assert parts[..k][1..] == parts[1..][..k - 1];
  }

  /**
   * Short-circuit: when the value read after `k` segments is None and more
   * segments follow, the output is None whatever the post-processor.
   */
  lemma OutputShortCircuits(attr: string, post: Option<PostProcessor>, key: string, obj: Value, k: nat)
    requires 1 <= k < |Split(attr, '.')|
    requires Chain(obj, Split(attr, '.')[..k]) == Ok(Null)
    ensures Output(Attr(attr, post), key, obj) == Ok(Null)
  {
    var parts := Split(attr, '.');
    assert parts[..k][0] == parts[0];
    ChainPrefix(obj, parts, k);
    WalkRestShortCircuits(GetAttr(obj, parts[0]).value, parts[1..], k - 1);
  }

  /**
   * No short-circuit: when every segment reads, the output is the final
   * value passed through the post-processor (even when that value is None),
   * or the final value itself.
   */
  lemma OutputReachesFinal(attr: string, post: Option<PostProcessor>, key: string, obj: Value)
    requires Chain(obj, Split(attr, '.')).Ok?
    ensures var v := Chain(obj, Split(attr, '.')).value;
      Output(Attr(attr, post), key, obj) == if post.None? then Ok(v) else Apply(post.value, v)
  {
    var parts := Split(attr, '.');
    WalkRestReaches(GetAttr(obj, parts[0]).value, parts[1..]);
  }

  /**
   * Missing attribute: when no intermediate value is None and some read
   * fails, the output is that read's AttributeError.
   */
  lemma OutputFails(attr: string, post: Option<PostProcessor>, key: string, obj: Value)
    requires Chain(obj, Split(attr, '.')).Err?
    requires forall k :: 1 <= k < |Split(attr, '.')| ==> Chain(obj, Split(attr, '.')[..k]) != Ok(Null)
    ensures Output(Attr(attr, post), key, obj) == Err(Chain(obj, Split(attr, '.')).error)
  {
    var parts := Split(attr, '.');
    var first := GetAttr(obj, parts[0]);
    if first.Ok? {
      forall j | 0 <= j < |parts[1..]|
        ensures Chain(first.value, parts[1..][..j]) != Ok(Null)
      {
        ChainPrefix(obj, parts, j + 1);
      }
      WalkRestFails(first.value, parts[1..]);
    }
  }
}
