/** The field schema: configured telemetry fields and their type-driven default values. */
module Fields {

  /** One configured telemetry field (Go `Field`): identifier, display name and type tag. */
  datatype FieldSpec = FieldSpec(id: string, name: string, kind: string)

  /** The untyped `interface{}` value slot, as a closed tagged union. */
  datatype Value = Text(s: string) | Int(i: int) | Real(r: real) | Null

  /** One field of the session state (Go `StateField`). */
  datatype StateField = StateField(id: string, name: string, kind: string, value: Value)

  /** The shape of value a type tag calls for; any tag other than the three known ones calls for null. */
  predicate Conforms(v: Value, kind: string) {
    if kind == "string" then v.Text?
    else if kind == "int" then v.Int?
    else if kind == "float" then v.Real?
    else v.Null?
  }

  /** The zero of each shape. */
  predicate IsZero(v: Value) {
    match v
    case Text(s) => s == ""
    case Int(i) => i == 0
    case Real(r) => r == 0.0
    case Null => true
  }

  /** The per-type default of the field builder's switch; total, so an unknown tag never fails. */
  function DefaultValue(kind: string): (v: Value)
    ensures Conforms(v, kind) && IsZero(v)
    ensures v.Null? <==> kind !in {"string", "int", "float"}
  {
    if kind == "string" then Text("")
    else if kind == "int" then Int(0)
    else if kind == "float" then Real(0.0)
    else Null
  }

  /** The zero value of a kind is the only value that both conforms to the kind and is a zero. */
  lemma DefaultValueUnique(kind: string, v: Value)
    requires Conforms(v, kind) && IsZero(v)
    ensures v == DefaultValue(kind)
  {
  }

  /** The state field built from one configured field. */
  function DefaultField(f: FieldSpec): (r: StateField)
    ensures r.id == f.id && r.name == f.name && r.kind == f.kind
    ensures Conforms(r.value, r.kind) && IsZero(r.value)
  {
    StateField(f.id, f.name, f.kind, DefaultValue(f.kind))
  }

  /** The loop in `main` that fills a slice of the configured length, by index, in configuration order. */
  method BuildFields(cfg: seq<FieldSpec>) returns (fields: array<StateField>)
    ensures fresh(fields)
    ensures fields.Length == |cfg|
    ensures forall i :: 0 <= i < |cfg| ==> fields[i] == DefaultField(cfg[i])
  {
    fields := new StateField[|cfg|];
    var i := 0;
    while i < |cfg|
      invariant 0 <= i <= |cfg|
      invariant forall j :: 0 <= j < i ==> fields[j] == DefaultField(cfg[j])
    {
      var f := cfg[i];
      fields[i] := StateField(f.id, f.name, f.kind, DefaultValue(f.kind));
      i := i + 1;
    }
  }
}
