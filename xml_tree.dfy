/** The XML element the image-loader codecs exchange with the persistence
    layer, seen through the typed helpers they use: an element carries a
    name, a format attribute and an ordered list of named children, each
    holding an integer, an integer array or a floating-point array.  The
    floating-point type is left abstract (`D`): the codec only copies it. */
module XmlTree {
  import opened JavaInts

  datatype Value<D> =
    | IntVal(i: Int32)
    | IntArr(ints: seq<Int32>)
    | DblArr(dbls: seq<D>)

  datatype Child<D> = Child(name: string, value: Value<D>)

  datatype Element<D> = Element(name: string, format: string, children: seq<Child<D>>)

  datatype Option<T> = None | Some(value: T)

  /** Why reading a child back fails. */
  datatype XmlError =
    | Missing(name: string)     // no child with that name
    | WrongType(name: string)   // the child does not hold the kind of value asked for
    | TooShort(name: string)    // an array child is shorter than the index read from it

  datatype Result<T> = Ok(value: T) | Err(error: XmlError) {
    predicate IsFailure() {
      Err?
    }

    function PropagateFailure<U>(): Result<U>
      requires Err?
    {
      Err(error)
    }

    function Extract(): T
      requires Ok?
    {
      value
    }
  }

  /** No two children share a name. */
  predicate UniqueNames<D>(cs: seq<Child<D>>) {
    forall i, j :: 0 <= i < j < |cs| ==> cs[i].name != cs[j].name
  }

  predicate HasName<D>(cs: seq<Child<D>>, name: string) {
    exists i :: 0 <= i < |cs| && cs[i].name == name
  }

  /** `cs[i]` is the first child called `name`. */
  predicate FirstNamed<D>(cs: seq<Child<D>>, name: string, i: int) {
    0 <= i < |cs| && cs[i].name == name && forall j :: 0 <= j < i ==> cs[j].name != name
  }

  /** The value of the first child called `name`, as a lookup of a child
      element by name returns it. */
  function Lookup<D>(cs: seq<Child<D>>, name: string): (r: Option<Value<D>>) {
    if cs == [] then None
    else if cs[0].name == name then Some(cs[0].value)
    else Lookup(cs[1..], name)
  }

  /** The lookup fails exactly when no child has the name, and what it finds
      is the value of the first child with that name. */
  lemma {:induction false} LookupSound<D>(cs: seq<Child<D>>, name: string)
    ensures Lookup(cs, name).None? <==> !HasName(cs, name)
    ensures Lookup(cs, name).Some? ==> Child(name, Lookup(cs, name).value) in cs
    ensures Lookup(cs, name).Some? ==>
      exists i :: FirstNamed(cs, name, i) && cs[i].value == Lookup(cs, name).value
  {
    if cs != [] && cs[0].name != name {
      LookupSound(cs[1..], name);
      if Lookup(cs, name).Some? {
        var i :| FirstNamed(cs[1..], name, i) && cs[1..][i].value == Lookup(cs, name).value;
        assert FirstNamed(cs, name, i + 1);
      }
      assert HasName(cs, name) ==> HasName(cs[1..], name) by {
        if HasName(cs, name) {
          var i :| 0 <= i < |cs| && cs[i].name == name;
          assert cs[1..][i - 1].name == name;
        }
      }
      assert HasName(cs[1..], name) ==> HasName(cs, name) by {
        if HasName(cs[1..], name) {
          var i :| 0 <= i < |cs[1..]| && cs[1..][i].name == name;
          assert cs[i + 1].name == name;
        }
      }
    } else if cs != [] {
      assert cs[0].name == name;
      assert FirstNamed(cs, name, 0);
    }
  }

  /** Among children with distinct names, the lookup finds exactly the
      children the list holds. */
  lemma {:induction false} LookupFindsMember<D>(cs: seq<Child<D>>, name: string, v: Value<D>)
    requires UniqueNames(cs)
    ensures Lookup(cs, name) == Some(v) <==> Child(name, v) in cs
  {
    if cs != [] && cs[0].name != name {
      assert UniqueNames(cs[1..]) by {
        forall i, j | 0 <= i < j < |cs[1..]| ensures cs[1..][i].name != cs[1..][j].name {
          assert cs[1..][i] == cs[i + 1] && cs[1..][j] == cs[j + 1];
        }
      }
      LookupFindsMember(cs[1..], name, v);
      assert Child(name, v) in cs <==> Child(name, v) in cs[1..] by {
        assert cs == [cs[0]] + cs[1..];
      }
    } else if cs != [] && Child(name, v) in cs {
      var k :| 0 <= k < |cs| && cs[k] == Child(name, v);
      assert k == 0;
    }
  }

  /** Reordering children with distinct names does not change what a lookup
      by name returns. */
  lemma LookupIgnoresOrder<D>(cs1: seq<Child<D>>, cs2: seq<Child<D>>, name: string)
    requires UniqueNames(cs1)
    requires multiset(cs1) == multiset(cs2)
    ensures Lookup(cs1, name) == Lookup(cs2, name)
  {
    LookupSound(cs1, name);
    LookupSound(cs2, name);
    match Lookup(cs2, name)
    case Some(w) =>
      assert Child(name, w) in multiset(cs2);
      LookupFindsMember(cs1, name, w);
    case None =>
      forall i | 0 <= i < |cs1| ensures cs1[i].name != name {
        assert cs1[i] in multiset(cs2);
      }
  }

  /** Reading an `int` child. */
  function GetInt<D>(e: Element<D>, name: string): (r: Result<Int32>)
    ensures r == Err(Missing(name)) <==> !HasName(e.children, name)
    ensures r.Ok? ==> Child(name, IntVal(r.value)) in e.children
    ensures r.Ok? ==> Lookup(e.children, name) == Some(IntVal(r.value))
    ensures r.Err? && HasName(e.children, name) ==> r == Err(WrongType(name))
    ensures r.Ok? <==> Lookup(e.children, name).Some? && Lookup(e.children, name).value.IntVal?
  {
    LookupSound(e.children, name);
    match Lookup(e.children, name)
    case None => Err(Missing(name))
    case Some(IntVal(i)) => Ok(i)
    case Some(_) => Err(WrongType(name))
  }

  /** Reading an `int[]` child. */
  function GetIntArray<D>(e: Element<D>, name: string): (r: Result<seq<Int32>>)
    ensures r == Err(Missing(name)) <==> !HasName(e.children, name)
    ensures r.Ok? ==> Child(name, IntArr(r.value)) in e.children
    ensures r.Ok? ==> Lookup(e.children, name) == Some(IntArr(r.value))
    ensures r.Err? && HasName(e.children, name) ==> r == Err(WrongType(name))
    ensures r.Ok? <==> Lookup(e.children, name).Some? && Lookup(e.children, name).value.IntArr?
  {
    LookupSound(e.children, name);
    match Lookup(e.children, name)
    case None => Err(Missing(name))
    case Some(IntArr(a)) => Ok(a)
    case Some(_) => Err(WrongType(name))
  }

  /** Reading a `double[]` child. */
  function GetDoubleArray<D>(e: Element<D>, name: string): (r: Result<seq<D>>)
    ensures r == Err(Missing(name)) <==> !HasName(e.children, name)
    ensures r.Ok? ==> Child(name, DblArr(r.value)) in e.children
    ensures r.Ok? ==> Lookup(e.children, name) == Some(DblArr(r.value))
    ensures r.Err? && HasName(e.children, name) ==> r == Err(WrongType(name))
    ensures r.Ok? <==> Lookup(e.children, name).Some? && Lookup(e.children, name).value.DblArr?
  {
    LookupSound(e.children, name);
    match Lookup(e.children, name)
    case None => Err(Missing(name))
    case Some(DblArr(a)) => Ok(a)
    case Some(_) => Err(WrongType(name))
  }
}
