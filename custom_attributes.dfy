/** The attribute-container queries (CommandDotNet.Extensions.
    CustomAttributesContainerExtensions): HasAttribute<T>, GetCustomAttributes<T>
    and GetCustomAttribute<T> over a container whose attribute provider may be
    null. The type argument T is a type tag; an attribute is of type T when its
    tag is T's (exact match). */
module Extensions {
  import opened Primitives

  type TypeTag = string

  /** An attribute instance: its runtime type and its payload. */
  datatype Attribute<V> = Attribute(typeTag: TypeTag, value: V)

  /** ICustomAttributesContainer: its CustomAttributes provider, null or the
      attributes it carries in declaration order. */
  datatype Container<V> = Container(customAttributes: Option<seq<Attribute<V>>>)

  datatype Exception =
    | ArgumentNullException(paramName: string)
    | InvalidOperationException  // "Sequence contains more than one element"

  /** What a query yields: a value, null, or the exception it throws. */
  datatype Outcome<+T> = Value(value: T) | Null | Error(exception: Exception)

  /** The attributes of type t, in the order the provider lists them
      (GetCustomAttributes(typeof(T), false).Cast<T>()). */
  function OfType<V>(attrs: seq<Attribute<V>>, t: TypeTag): (r: seq<Attribute<V>>)
    ensures |r| <= |attrs|
    ensures forall i :: 0 <= i < |r| ==> r[i].typeTag == t
    ensures forall a :: a in r ==> a in attrs
    ensures forall a :: a in attrs && a.typeTag == t ==> a in r
    decreases |attrs|
  {
    if attrs == [] then []
    else if attrs[0].typeTag == t then [attrs[0]] + OfType(attrs[1..], t)
    else OfType(attrs[1..], t)
  }

  ghost predicate SomeOfType<V>(attrs: seq<Attribute<V>>, t: TypeTag)
  {
    exists i :: 0 <= i < |attrs| && attrs[i].typeTag == t
  }

  ghost predicate TwoOfType<V>(attrs: seq<Attribute<V>>, t: TypeTag)
  {
    exists i, j :: 0 <= i < j < |attrs| && attrs[i].typeTag == t && attrs[j].typeTag == t
  }

  /** Filtering keeps every attribute of type t as often as it occurs and
      drops every other. */
  lemma {:induction false} OfTypeCount<V>(attrs: seq<Attribute<V>>, t: TypeTag, a: Attribute<V>)
    ensures multiset(OfType(attrs, t))[a] == if a.typeTag == t then multiset(attrs)[a] else 0
    decreases |attrs|
  {
    if attrs != [] {
      OfTypeCount(attrs[1..], t, a);
      assert attrs == [attrs[0]] + attrs[1..];
    }
  }

  /** Filtering a concatenation filters each part: the kept attributes stay in
      their original order. */
  lemma {:induction false} OfTypeAppend<V>(xs: seq<Attribute<V>>, ys: seq<Attribute<V>>, t: TypeTag)
    ensures OfType(xs + ys, t) == OfType(xs, t) + OfType(ys, t)
    decreases |xs|
  {
    if xs == [] {
      assert xs + ys == ys;
    } else {
      assert (xs + ys)[0] == xs[0] && (xs + ys)[1..] == xs[1..] + ys;
      OfTypeAppend(xs[1..], ys, t);
    }
  }

  /** Two attributes of type t in a list whose head is of type t: the head
      and one more in the tail. */
  lemma TwoOfTypeWithMatchingHead<V>(attrs: seq<Attribute<V>>, t: TypeTag)
    requires attrs != [] && attrs[0].typeTag == t
    ensures TwoOfType(attrs, t) <==> SomeOfType(attrs[1..], t)
  {
  }

  /** Two attributes of type t in a list whose head is not of type t: both in
      the tail. */
  lemma TwoOfTypeWithOtherHead<V>(attrs: seq<Attribute<V>>, t: TypeTag)
    requires attrs != [] && attrs[0].typeTag != t
    ensures TwoOfType(attrs, t) <==> TwoOfType(attrs[1..], t)
  {
  }

  /** Filtering leaves nothing exactly when no attribute is of type t. */
  lemma OfTypeEmpty<V>(attrs: seq<Attribute<V>>, t: TypeTag)
    ensures OfType(attrs, t) == [] <==> !SomeOfType(attrs, t)
  {
  }

  /** Filtering leaves two or more attributes exactly when two positions hold
      attributes of type t. */
  lemma {:induction false} OfTypeLength<V>(attrs: seq<Attribute<V>>, t: TypeTag)
    ensures OfType(attrs, t) == [] <==> !SomeOfType(attrs, t)
    ensures |OfType(attrs, t)| >= 2 <==> TwoOfType(attrs, t)
    decreases |attrs|
  {
    OfTypeEmpty(attrs, t);
    if attrs != [] {
      var tail := attrs[1..];
      if attrs[0].typeTag == t {
        OfTypeEmpty(tail, t);
        TwoOfTypeWithMatchingHead(attrs, t);
      } else {
        OfTypeLength(tail, t);
        TwoOfTypeWithOtherHead(attrs, t);
      }
    }
  }

  /** Enumerable.SingleOrDefault: null for no element, the element for exactly
      one; it throws for a null source and for more than one element. */
  function SingleOrDefault<T>(source: Option<seq<T>>): (r: Outcome<T>)
    ensures r == Null <==> source == Some([])
    ensures r.Value? <==> source.Some? && |source.value| == 1
    ensures r.Value? ==> source.value == [r.value]
    ensures r == Error(ArgumentNullException("source")) <==> source.None?
    ensures r == Error(InvalidOperationException) <==> source.Some? && |source.value| >= 2
  {
    match source
    case None => Error(ArgumentNullException("source"))
    case Some(s) =>
      if |s| == 0 then Null
      else if |s| == 1 then Value(s[0])
      else Error(InvalidOperationException)
  }

  /** `container.CustomAttributes?.HasAttribute<T>() ?? false` */
  function HasAttribute<V>(container: Option<Container<V>>, t: TypeTag): (r: Outcome<bool>)
    ensures container.None? ==> r == Error(ArgumentNullException("container"))
    ensures container.Some? && container.value.customAttributes.None? ==> r == Value(false)
    ensures container.Some? && container.value.customAttributes.Some? ==>
              r == Value(SomeOfType(container.value.customAttributes.value, t))
  {
    match container
    case None => Error(ArgumentNullException("container"))
    case Some(c) =>
      match c.customAttributes
      case None => Value(false)
      case Some(attrs) => OfTypeLength(attrs, t); Value(OfType(attrs, t) != [])
  }

  /** `container.CustomAttributes?.GetCustomAttributes(typeof(T), false).Cast<T>()`:
      null when the provider is null (not an empty sequence). */
  function GetCustomAttributes<V>(container: Option<Container<V>>, t: TypeTag): (r: Outcome<seq<Attribute<V>>>)
    ensures container.None? ==> r == Error(ArgumentNullException("container"))
    ensures container.Some? && container.value.customAttributes.None? ==> r == Null
    ensures container.Some? && container.value.customAttributes.Some? ==>
              var attrs := container.value.customAttributes.value;
              && r == Value(OfType(attrs, t))
              && (forall i :: 0 <= i < |r.value| ==> r.value[i].typeTag == t)
              && (forall a :: a in r.value ==> a in attrs)
              && (forall a :: a in attrs && a.typeTag == t ==> multiset(r.value)[a] == multiset(attrs)[a])
              && (r.value == [] <==> !SomeOfType(attrs, t))
  {
    match container
    case None => Error(ArgumentNullException("container"))
    case Some(c) =>
      match c.customAttributes
      case None => Null
      case Some(attrs) =>
        OfTypeLength(attrs, t);
        assert forall a :: a in attrs && a.typeTag == t ==> multiset(OfType(attrs, t))[a] == multiset(attrs)[a] by {
          forall a | a in attrs && a.typeTag == t
            ensures multiset(OfType(attrs, t))[a] == multiset(attrs)[a]
          {
            OfTypeCount(attrs, t, a);
          }
        }
        Value(OfType(attrs, t))
  }

  /** `container.GetCustomAttributes<T>().SingleOrDefault()`: null for no
      attribute of type T, that attribute for exactly one, and an exception
      for two or more; a null provider makes SingleOrDefault throw. */
  function GetCustomAttribute<V>(container: Option<Container<V>>, t: TypeTag): (r: Outcome<Attribute<V>>)
    ensures container.None? ==> r == Error(ArgumentNullException("container"))
    ensures container.Some? && container.value.customAttributes.None? ==>
              r == Error(ArgumentNullException("source"))
    ensures container.Some? && container.value.customAttributes.Some? ==>
              var attrs := container.value.customAttributes.value;
              && (r == Null <==> !SomeOfType(attrs, t))
              && (r == Error(InvalidOperationException) <==> TwoOfType(attrs, t))
              && (r.Value? <==> SomeOfType(attrs, t) && !TwoOfType(attrs, t))
              && (r.Value? ==> r.value.typeTag == t &&
                               forall i :: 0 <= i < |attrs| && attrs[i].typeTag == t ==> attrs[i] == r.value)
  {
    match container
    case None => Error(ArgumentNullException("container"))
    case Some(c) =>
      match GetCustomAttributes(container, t)
      case Value(s) => OfTypeLength(c.customAttributes.value, t); SingleOrDefault(Some(s))
      case _ => SingleOrDefault<Attribute<V>>(None)
  }

  /** The three queries agree on a container with a provider: HasAttribute is
      false exactly when GetCustomAttributes is empty, and then
      GetCustomAttribute is null. */
  lemma QueriesAgree<V>(container: Option<Container<V>>, t: TypeTag)
    requires container.Some? && container.value.customAttributes.Some?
    ensures HasAttribute(container, t) == Value(false) <==> GetCustomAttributes(container, t) == Value([])
    ensures HasAttribute(container, t) == Value(false) ==> GetCustomAttribute(container, t) == Null
    ensures HasAttribute(container, t) == Value(true) ==> GetCustomAttribute(container, t) != Null
  {
  }
}
