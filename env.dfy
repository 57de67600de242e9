/**
 * The variable store of the interpreter: a map from variable names to
 * values, with the names remembered in the order they were first bound so
 * that the C declarations can list them.
 */
module Env {
  import opened Wrappers
  import opened Errors

  /** The store as a value: bindings plus the names in first-binding order. */
  datatype Store = Store(vals: map<string, real>, names: seq<string>) {

    /** Every name is listed once, and exactly the bound names are listed. */
    ghost predicate Valid() {
      && (forall i, j :: 0 <= i < j < |names| ==> names[i] != names[j])
      && (forall v :: v in vals <==> v in names)
    }

    /** Java's `put(var, val)`: inserts or updates the binding of `v`. */
    function Put(v: string, x: real): (s: Store)
      ensures v in s.vals && s.vals[v] == x
      ensures forall w :: w != v ==> (w in s.vals <==> w in vals)
      ensures forall w :: w != v && w in vals ==> s.vals[w] == vals[w]
      ensures v in names ==> s.names == names
      ensures v !in names ==> s.names == names + [v]
    {
      Store(vals[v := x], if v in names then names else names + [v])
    }

    /**
     * Java's `get(pos, var)`: the bound value, or an evaluation error that
     * carries the caller's position when the name has no binding.
     */
    function Get(pos: int, v: string): (r: Result<real, EvalException>)
      ensures r.Ok? <==> v in vals
      ensures r.Ok? ==> r.value == vals[v]
      ensures r.Err? ==> r.error == EvalException(pos, UndefinedMessage(v))
    {
      if v in vals then Ok(vals[v]) else Err(EvalException(pos, UndefinedMessage(v)))
    }
  }

  /** The store a fresh environment starts with. */
  const Empty: Store := Store(map[], [])

  /** The message of the error raised for a name that was never bound. */
  function UndefinedMessage(v: string): string {
    "undefined variable: " + v
  }

  /**
   * The string Java's `toC` loop accumulates: each name preceded by a
   * separator, a blank before the first name and a comma before the others.
   */
  function Joined(names: seq<string>): string {
    if |names| == 0 then ""
    else Joined(names[..|names| - 1]) + (if |names| == 1 then " " else ",") + names[|names| - 1]
  }

  /** The names separated by commas, read from the front. */
  function CommaList(names: seq<string>): string {
    if |names| == 0 then ""
    else if |names| == 1 then names[0]
    else names[0] + "," + CommaList(names[1..])
  }

  /** The C declarations `toC` renders for a list of names. */
  function DeclText(names: seq<string>): string {
    var s := Joined(names);
    if s == "" then "" else "int" + s + ";\nx=0;x=x;\n"
  }

  /** The accumulated string is a blank followed by the comma-separated names. */
  lemma {:induction false} JoinedIsCommaList(names: seq<string>)
    requires |names| > 0
    ensures Joined(names) == " " + CommaList(names)
    decreases |names|
  {
    if |names| > 1 {
      var init := names[..|names| - 1];
      var last := names[|names| - 1];
      JoinedIsCommaList(init);
      CommaListSnoc(init, last);
      assert init + [last] == names;
    }
  }

  /** Appending a name to a non-empty list adds a comma and the name. */
  lemma {:induction false} CommaListSnoc(names: seq<string>, v: string)
    requires |names| > 0
    ensures CommaList(names + [v]) == CommaList(names) + "," + v
    decreases |names|
  {
    if |names| > 1 {
      assert (names + [v])[1..] == names[1..] + [v];
      CommaListSnoc(names[1..], v);
    } else {
      assert (names + [v])[1..] == [v];
    }
  }

  /**
   * No names render as the empty text; otherwise the text is "int ", the
   * names separated by commas, and the fixed initialisation tail.
   */
  lemma DeclTextShape(names: seq<string>)
    ensures |names| == 0 ==> DeclText(names) == ""
    ensures |names| > 0 ==> DeclText(names) == "int " + CommaList(names) + ";\nx=0;x=x;\n"
  {
    if |names| > 0 {
      JoinedIsCommaList(names);
      var c := CommaList(names);
      var j := Joined(names);
      assert j == " " + c;
      assert j != "" by {
        assert |j| > 0;
      }
      assert DeclText(names) == "int" + j + ";\nx=0;x=x;\n";
      assert "int" + j == "int " + c;
    }
  }

  /** The fixed list the Java class starts with renders as one declaration. */
  lemma DeclTextOfX()
    ensures DeclText(["x"]) == "int x;\nx=0;x=x;\n"
  {
    DeclTextShape(["x"]);
  }

  /** A binding is read back unchanged. */
  lemma PutThenGet(s: Store, v: string, x: real, pos: int)
    ensures s.Put(v, x).Get(pos, v) == Ok(x)
  {
  }

  /** Binding one name leaves every other name's lookup as it was. */
  lemma PutLeavesOthers(s: Store, v: string, w: string, x: real, pos: int)
    requires v != w
    ensures s.Put(v, x).Get(pos, w) == s.Get(pos, w)
  {
  }

  /** A name never bound raises an error at the caller's position. */
  lemma UnboundRaises(s: Store, v: string, pos: int)
    requires s.Valid() && v !in s.names
    ensures s.Get(pos, v) == Err(EvalException(pos, "undefined variable: " + v))
  {
  }

  /** Binding keeps the store well formed. */
  lemma PutKeepsValid(s: Store, v: string, x: real)
    requires s.Valid()
    ensures s.Put(v, x).Valid()
  {
  }

  /** Rebinding a name replaces the earlier value: only the last put counts. */
  lemma PutTwice(s: Store, v: string, x: real, y: real)
    ensures s.Put(v, x).Put(v, y) == s.Put(v, y)
  {
  }

  /**
   * Java's `Environment`: the runtime variable store shared by the
   * statements of one program.
   */
  class Environment {
    var vals: map<string, real>
    var names: seq<string>

    function State(): Store
      reads this
    {
      Store(vals, names)
    }

    ghost predicate Valid()
      reads this
    {
      State().Valid()
    }

    constructor ()
      ensures Valid() && State() == Empty
    {
      vals := map[];
      names := [];
    }

    /** Binds `v` to `x` and returns `x`. */
    method Put(v: string, x: real) returns (r: real)
      requires Valid()
      modifies this
      ensures Valid()
      ensures State() == old(State()).Put(v, x)
      ensures r == x
    {
      PutKeepsValid(State(), v, x);
      vals := vals[v := x];
      if v !in names {
        names := names + [v];
      }
      r := x;
    }

    /** Looks `v` up; an unbound name raises an error at `pos`. */
    method Get(pos: int, v: string) returns (r: Result<real, EvalException>)
      ensures r == State().Get(pos, v)
    {
      if v in vals {
        r := Ok(vals[v]);
      } else {
        r := Err(EvalException(pos, UndefinedMessage(v)));
      }
    }

    /** Java's `toC()`: the C declarations of every bound name. */
    method ToC() returns (c: string)
      ensures c == DeclText(names)
    {
      var s := "";
      var sep := " ";
      var i := 0;
      while i < |names|
        invariant 0 <= i <= |names|
        invariant s == Joined(names[..i])
        invariant sep == if i == 0 then " " else ","
      {
        assert names[..i + 1][..i] == names[..i];
        s := s + sep + names[i];
        sep := ",";
        i := i + 1;
      }
      assert names[..i] == names;
      c := if s == "" then "" else "int" + s + ";\nx=0;x=x;\n";
    }
  }
}
