/** Token documents as decoded JSON, their validation, and where writing one may fail. */
module TokenDocuments {
  import opened Common

  /** Decoded JSON. Unserializable stands for anything the encoder rejects. */
  datatype Value =
    | Null
    | Flag(b: bool)
    | Number(n: real)
    | NonFinite
    | Text(s: string)
    | List(items: seq<Value>)
    | Object(fields: seq<(string, Value)>)
    | Unserializable

  predicate Serializable(v: Value) {
    match v
    case NonFinite => false
    case Unserializable => false
    case List(items) => forall i :: 0 <= i < |items| ==> Serializable(items[i])
    case Object(fields) => forall i :: 0 <= i < |fields| ==> Serializable(fields[i].1)
    case _ => true
  }

  function Lookup(fields: seq<(string, Value)>, name: string): Option<Value> {
    if fields == [] then None
    else if fields[|fields| - 1].0 == name then Some(fields[|fields| - 1].1)
    else Lookup(fields[..|fields| - 1], name)
  }

  predicate NonEmptyText(v: Option<Value>) {
    v.Some? && v.value.Text? && v.value.s != ""
  }

  /** The stable envelope: a positive finite creation time and both OAuth tokens. */
  predicate ValidDocument(v: Value) {
    && v.Object?
    && (var creation := Lookup(v.fields, "creation_timestamp");
        creation.Some? && creation.value.Number? && creation.value.n > 0.0)
    && (var payload := Lookup(v.fields, "token");
        && payload.Some? && payload.value.Object?
        && NonEmptyText(Lookup(payload.value.fields, "access_token"))
        && NonEmptyText(Lookup(payload.value.fields, "refresh_token")))
    && Serializable(v)
  }

  function CreatedAt(v: Value): real
    requires ValidDocument(v)
  {
    Lookup(v.fields, "creation_timestamp").value.n
  }

  /** What a path may hold. A file that is being written is torn. */
  datatype Contents = Complete(value: Value) | Torn

  datatype Fault =
    | NoFault
    | CreateFails
    | PermissionFails
    | EncodeFails
    | SyncFails
    | ReplaceFails
    | DirectorySyncFails

  /** The first step that fails; a document the encoder rejects fails there at the latest. */
  function Effective(token: Value, fault: Fault): Fault {
    if Serializable(token) || fault.CreateFails? || fault.PermissionFails? then fault else EncodeFails
  }

  predicate Replaces(token: Value, fault: Fault) {
    Effective(token, fault).NoFault? || Effective(token, fault).DirectorySyncFails?
  }

  // ---------------------------------------------------------------------------------------
  // What a token document is, by the positions of its fields.
  // ---------------------------------------------------------------------------------------

  ghost predicate IsLast(fields: seq<(string, Value)>, name: string, i: nat) {
    i < |fields| && fields[i].0 == name && forall j :: i < j < |fields| ==> fields[j].0 != name
  }

  /** The last field of that name holds the value. */
  ghost predicate Carries(fields: seq<(string, Value)>, name: string, v: Value) {
    exists i: nat :: IsLast(fields, name, i) && fields[i].1 == v
  }

  ghost predicate CarriesText(fields: seq<(string, Value)>, name: string) {
    exists text :: text != "" && Carries(fields, name, Text(text))
  }

  ghost predicate CarriesTokens(fields: seq<(string, Value)>) {
    exists token :: Carries(fields, "token", Object(token)) && CarriesText(token, "access_token") && CarriesText(token, "refresh_token")
  }

  /** The value reached by going down lists and objects. */
  function Inside(v: Value, path: seq<nat>): Option<Value> {
    if path == [] then Some(v)
    else
      match v
      case List(items) => if path[0] < |items| then Inside(items[path[0]], path[1..]) else None
      case Object(fields) => if path[0] < |fields| then Inside(fields[path[0]].1, path[1..]) else None
      case _ => None
  }

  /** Nothing inside is more than the encoder knows. */
  ghost predicate Encodable(v: Value) {
    forall path :: Inside(v, path) != Some(NonFinite) && Inside(v, path) != Some(Unserializable)
  }

  /** The document was created then, carries both OAuth tokens, and can be written. */
  ghost predicate IsTokenOf(v: Value, created: real) {
    && v.Object?
    && created > 0.0
    && Carries(v.fields, "creation_timestamp", Number(created))
    && CarriesTokens(v.fields)
    && Encodable(v)
  }

  ghost predicate IsToken(v: Value) {
    exists created :: IsTokenOf(v, created)
  }

  lemma {:induction false} LookupIff(fields: seq<(string, Value)>, name: string)
    ensures forall v :: Lookup(fields, name) == Some(v) <==> Carries(fields, name, v)
  {
    if fields != [] {
      var n := |fields| - 1;
      LookupIff(fields[..n], name);
      if fields[n].0 == name {
        assert IsLast(fields, name, n);
        assert forall i: nat :: IsLast(fields, name, i) ==> i == n;
      } else {
        CarriesBefore(fields, fields[..n], name);
      }
    }
  }

  lemma CarriesBefore(fields: seq<(string, Value)>, front: seq<(string, Value)>, name: string)
    requires fields != [] && front == fields[..|fields| - 1] && fields[|fields| - 1].0 != name
    ensures forall v :: Carries(fields, name, v) <==> Carries(front, name, v)
  {
    forall i: nat
      ensures IsLast(fields, name, i) <==> IsLast(front, name, i)
    {
      assert forall j :: 0 <= j < |front| ==> front[j] == fields[j];
    }
    forall v
      ensures Carries(fields, name, v) <==> Carries(front, name, v)
    {
      if i: nat :| IsLast(fields, name, i) && fields[i].1 == v {
        assert IsLast(front, name, i) && front[i].1 == v;
      }
      if i: nat :| IsLast(front, name, i) && front[i].1 == v {
        assert IsLast(fields, name, i) && fields[i].1 == v;
      }
    }
  }

  lemma {:induction false} SerializableIff(v: Value)
    ensures Serializable(v) <==> Encodable(v)
    decreases v
  {
    assert Inside(v, []) == Some(v);
    match v
    case List(items) =>
      forall i | 0 <= i < |items|
        ensures Serializable(items[i]) <==> Encodable(items[i])
      {
        SerializableIff(items[i]);
      }
      EncodableParts(v, items);
    case Object(fields) =>
      forall i | 0 <= i < |fields|
        ensures Serializable(fields[i].1) <==> Encodable(fields[i].1)
      {
        SerializableIff(fields[i].1);
      }
      EncodableParts(v, seq(|fields|, i requires 0 <= i < |fields| => fields[i].1));
    case _ =>
      assert forall path :: path != [] ==> Inside(v, path) == None;
  }

  lemma EncodableParts(v: Value, parts: seq<Value>)
    requires v == List(parts)
             || (v.Object? && |v.fields| == |parts| && forall i :: 0 <= i < |parts| ==> v.fields[i].1 == parts[i])
    ensures Encodable(v) <==> forall i :: 0 <= i < |parts| ==> Encodable(parts[i])
  {
    forall i, path | 0 <= i < |parts|
      ensures Inside(v, [i] + path) == Inside(parts[i], path)
    {
      assert ([i] + path)[1..] == path;
    }
    if Encodable(v) {
      forall i, path | 0 <= i < |parts|
        ensures Inside(parts[i], path) != Some(NonFinite) && Inside(parts[i], path) != Some(Unserializable)
      {
        assert Inside(v, [i] + path) == Inside(parts[i], path);
      }
    }
    forall path | path != [] && path[0] < |parts|
      ensures Inside(v, path) == Inside(parts[path[0]], path[1..])
    {
    }
  }

  lemma TextIff(fields: seq<(string, Value)>, name: string)
    ensures NonEmptyText(Lookup(fields, name)) <==> CarriesText(fields, name)
  {
    hide Lookup, Carries;
    LookupIff(fields, name);
  }

  lemma TokensIff(fields: seq<(string, Value)>)
    ensures CarriesTokens(fields) <==>
            var payload := Lookup(fields, "token");
            && payload.Some? && payload.value.Object?
            && NonEmptyText(Lookup(payload.value.fields, "access_token"))
            && NonEmptyText(Lookup(payload.value.fields, "refresh_token"))
  {
    hide Lookup, Carries, NonEmptyText, CarriesText;
    LookupIff(fields, "token");
    forall token
      ensures NonEmptyText(Lookup(token, "access_token")) <==> CarriesText(token, "access_token")
      ensures NonEmptyText(Lookup(token, "refresh_token")) <==> CarriesText(token, "refresh_token")
    {
      TextIff(token, "access_token");
      TextIff(token, "refresh_token");
    }
  }

  /** A document passes validation exactly if it is a token document, and has one age. */
  lemma ValidIff(v: Value)
    ensures ValidDocument(v) <==> IsToken(v)
    ensures forall created :: IsTokenOf(v, created) <==> ValidDocument(v) && CreatedAt(v) == created
  {
    hide Lookup, Carries, NonEmptyText, CarriesTokens, Serializable, Encodable;
    SerializableIff(v);
    if v.Object? {
      LookupIff(v.fields, "creation_timestamp");
      TokensIff(v.fields);
    }
    assert ValidDocument(v) ==> IsTokenOf(v, CreatedAt(v));
  }
}
