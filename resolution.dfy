/** Listener resolution (Message.listeners): which Listener rows a message
    about a subject goes to. */
module Resolution {
  import opened Entities

  /** The Listener columns a Q object tests. */
  datatype Column = ObjProperty | ObjValue

  /** A Q expression: exact-match lookups combined with `&` and `|`. */
  datatype Query =
    | Exact(column: Column, value: string)
    | And(left: Query, right: Query)
    | Or(left: Query, right: Query)

  function Eval(q: Query, l: Listener): bool
  {
    match q
    case Exact(ObjProperty, v) => l.objProperty == v
    case Exact(ObjValue, v) => l.objValue == v
    case And(a, b) => Eval(a, l) && Eval(b, l)
    case Or(a, b) => Eval(a, l) || Eval(b, l)
  }

  /** `Listener.objects.filter(q)`: every row the query selects, of whatever obj_type. */
  function Filter(ls: seq<Listener>, q: Query): set<ListenerId>
  {
    set i | 0 <= i < |ls| && Eval(q, ls[i])
  }

  /** Some listener of type t watches property p. */
  ghost predicate Watched(ls: seq<Listener>, t: TypeId, p: string)
  {
    exists j :: 0 <= j < |ls| && ls[j].objType == t && ls[j].objProperty == p
  }

  /** `Listener.objects.filter(obj_type=t).values_list("obj_property").distinct()`:
      each watched property once. */
  function DistinctProps(ls: seq<Listener>, t: TypeId): (ps: seq<string>)
    ensures forall p :: p in ps <==> Watched(ls, t, p)
    ensures forall a, b :: 0 <= a < b < |ps| ==> ps[a] != ps[b]
  {
    if ls == [] then []
    else
      var rest := DistinctProps(ls[1..], t);
      assert forall p :: Watched(ls[1..], t, p) ==> Watched(ls, t, p) by {
        forall p | Watched(ls[1..], t, p) ensures Watched(ls, t, p) {
          var j :| 0 <= j < |ls[1..]| && ls[1..][j].objType == t && ls[1..][j].objProperty == p;
          assert ls[j + 1] == ls[1..][j];
        }
      }
      assert forall p :: Watched(ls, t, p) ==> (ls[0].objType == t && ls[0].objProperty == p) || Watched(ls[1..], t, p) by {
        forall p | Watched(ls, t, p) ensures (ls[0].objType == t && ls[0].objProperty == p) || Watched(ls[1..], t, p) {
          var j :| 0 <= j < |ls| && ls[j].objType == t && ls[j].objProperty == p;
          if j > 0 { assert ls[1..][j - 1] == ls[j]; }
        }
      }
      if ls[0].objType == t && ls[0].objProperty !in rest then [ls[0].objProperty] + rest else rest
  }

  /** The position of the first property the subject lacks, or |props| when it has them all. */
  function FirstMissing(props: seq<string>, obj: Props): (k: nat)
    ensures k <= |props|
    ensures forall j :: 0 <= j < k ==> Attr(obj, props[j]).Some?
    ensures k < |props| ==> Attr(obj, props[k]).None?
  {
    if props == [] then 0
    else if Attr(obj, props[0]).None? then 0
    else 1 + FirstMissing(props[1..], obj)
  }

  /** The listeners a message about subject obj of type t goes to, as a reference
      definition: if no listener has type t, none; if obj lacks a watched property,
      AttributeError for the first such property; otherwise every listener (of ANY
      type) whose property is watched by a type-t listener and whose value equals
      obj's value of that property. */
  function Resolve(ls: seq<Listener>, t: TypeId, obj: Props): (r: Result<set<ListenerId>, Error>)
    ensures (forall j :: 0 <= j < |ls| ==> ls[j].objType != t) ==> r == Success({})
    ensures r.Failure? <==> exists j :: 0 <= j < |ls| && ls[j].objType == t && Attr(obj, ls[j].objProperty).None?
    ensures r.Failure? ==> exists j ::
      && 0 <= j < |ls| && ls[j].objType == t
      && Attr(obj, ls[j].objProperty).None? && r.error == AttributeError(ls[j].objProperty)
    ensures r.Success? ==> forall i :: i in r.value <==>
      0 <= i < |ls| && Watched(ls, t, ls[i].objProperty) && Attr(obj, ls[i].objProperty) == Some(ls[i].objValue)
  {
    var props := DistinctProps(ls, t);
    if |props| == 0 then
      assert forall j :: 0 <= j < |ls| ==> ls[j].objType != t by {
        forall j | 0 <= j < |ls| ensures ls[j].objType != t {
          assert !Watched(ls, t, ls[j].objProperty);
        }
      }
      Success({})
    else
      var k := FirstMissing(props, obj);
      if k < |props| then
        assert Watched(ls, t, props[k]);
        Failure(AttributeError(props[k]))
      else
        assert Watched(ls, t, props[0]);
        assert forall j :: 0 <= j < |ls| && ls[j].objType == t ==> Attr(obj, ls[j].objProperty).Some? by {
          forall j | 0 <= j < |ls| && ls[j].objType == t ensures Attr(obj, ls[j].objProperty).Some? {
            assert ls[j].objProperty in props;
          }
        }
        Success(set i | 0 <= i < |ls| && ls[i].objProperty in props && Attr(obj, ls[i].objProperty) == Some(ls[i].objValue))
  }

  /** Resolution for the message's generic foreign key: with no subject row, obj is
      None and the lookup on it fails. */
  function ResolveFor(ls: seq<Listener>, subjects: map<ObjKey, Props>, key: ObjKey): (r: Result<set<ListenerId>, Error>)
    ensures key !in subjects ==> r == Failure(MissingObject(key))
    ensures r.Failure? <==>
      || key !in subjects
      || exists j :: 0 <= j < |ls| && ls[j].objType == key.objType && Attr(subjects[key], ls[j].objProperty).None?
    ensures r.Success? ==> r == Resolve(ls, key.objType, subjects[key])
  {
    if key !in subjects then Failure(MissingObject(key)) else Resolve(ls, key.objType, subjects[key])
  }

  /** The loop of Message.listeners: OR together, over the watched properties, the
      query "obj_value == obj's value of p and obj_property == p", failing on the
      first property the subject lacks. */
  method BuildQuery(props: seq<string>, obj: Props) returns (r: Result<Query, Error>)
    requires |props| > 0
    ensures r.Failure? <==> FirstMissing(props, obj) < |props|
    ensures r.Failure? ==> r.error == AttributeError(props[FirstMissing(props, obj)])
    ensures r.Success? ==> forall l :: Eval(r.value, l) <==>
      l.objProperty in props && Attr(obj, l.objProperty) == Some(l.objValue)
  {
    var query: Option<Query> := None;
    var i := 0;
    while i < |props|
      invariant 0 <= i <= |props|
      invariant query.Some? <==> i > 0
      invariant forall j :: 0 <= j < i ==> Attr(obj, props[j]).Some?
      invariant query.Some? ==> forall l :: Eval(query.value, l) <==>
        l.objProperty in props[..i] && Attr(obj, l.objProperty) == Some(l.objValue)
    {
      var value := Attr(obj, props[i]);
      if value.None? {
        return Failure(AttributeError(props[i]));
      }
      var q := And(Exact(ObjValue, value.value), Exact(ObjProperty, props[i]));
      assert props[..i + 1] == props[..i] + [props[i]];
      if query.None? {
        query := Some(q);
      } else {
        query := Some(Or(query.value, q));
      }
      assert forall l :: Eval(q, l) <==> l.objProperty == props[i] && Attr(obj, l.objProperty) == Some(l.objValue);
      i := i + 1;
    }
    assert props[..i] == props;
    return Success(query.value);
  }

  /** Filtering the listener table with the query the loop builds gives the
      reference resolution. */
  lemma {:induction false} FilterIsResolve(ls: seq<Listener>, t: TypeId, obj: Props, q: Query)
    requires |DistinctProps(ls, t)| > 0 && FirstMissing(DistinctProps(ls, t), obj) == |DistinctProps(ls, t)|
    requires forall l :: Eval(q, l) <==> l.objProperty in DistinctProps(ls, t) && Attr(obj, l.objProperty) == Some(l.objValue)
    ensures Resolve(ls, t, obj) == Success(Filter(ls, q))
  {
    var props := DistinctProps(ls, t);
    assert Filter(ls, q) == set i | 0 <= i < |ls| && ls[i].objProperty in props && Attr(obj, ls[i].objProperty) == Some(ls[i].objValue);
  }
}
