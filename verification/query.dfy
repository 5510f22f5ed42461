/** The query part of a Knotify URI and its conversion to keyword arguments,
    `dict(parse.parse_qsl(query))`. */
module Query {

  /** One `name=value` field of the query, already split and percent-decoded. A field
      written without `=` is the pair `(name, "")`. */
  type Field = (string, string)

  /** `parse_qsl` (with its default `keep_blank_values=False`) drops the fields whose
      value is blank; `dict` then keeps, for each name, the last value it sees. */
  function ParseQuery(fields: seq<Field>): (args: map<string, string>)
    ensures forall name :: name in args ==> args[name] != ""
  {
    if fields == [] then map[]
    else
      var rest := ParseQuery(fields[..|fields| - 1]);
      var (name, value) := fields[|fields| - 1];
      if value == "" then rest else rest[name := value]
  }

  /** Some field of the query gives `name` a non-blank value. */
  ghost predicate Supplied(fields: seq<Field>, name: string)
  {
    exists i :: 0 <= i < |fields| && fields[i].0 == name && fields[i].1 != ""
  }

  /** `value` is the non-blank value of the last field named `name` that has one. */
  ghost predicate LastValue(fields: seq<Field>, name: string, value: string)
  {
    exists i ::
      && 0 <= i < |fields| && fields[i] == (name, value) && value != ""
      && forall j :: i < j < |fields| && fields[j].0 == name ==> fields[j].1 == ""
  }

  /** The keyword arguments are exactly the names supplied with a non-blank value,
      and each one takes the value of its last such occurrence. */
  lemma {:induction false} ParseQueryLastWins(fields: seq<Field>)
    ensures forall name :: name in ParseQuery(fields) <==> Supplied(fields, name)
    ensures forall name :: name in ParseQuery(fields) ==> LastValue(fields, name, ParseQuery(fields)[name])
  {
    if fields != [] {
      var n := |fields| - 1;
      var init := fields[..n];
      var m, mi := ParseQuery(fields), ParseQuery(init);
      assert m == if fields[n].1 == "" then mi else mi[fields[n].0 := fields[n].1];
      ParseQueryLastWins(init);
      forall name
        ensures name in m <==> Supplied(fields, name)
      {
        if Supplied(init, name) {
          var i :| 0 <= i < |init| && init[i].0 == name && init[i].1 != "";
          assert fields[i] == init[i];
        }
        if Supplied(fields, name) {
          var i :| 0 <= i < |fields| && fields[i].0 == name && fields[i].1 != "";
          if i < n {
            assert init[i] == fields[i];
          }
        }
      }
      forall name | name in m
        ensures LastValue(fields, name, m[name])
      {
        if fields[n].0 == name && fields[n].1 != "" {
          assert fields[n] == (name, m[name]);
        } else {
          assert name in mi && m[name] == mi[name];
          var v := mi[name];
          var i :| && 0 <= i < |init| && init[i] == (name, v) && v != ""
                   && forall j :: i < j < |init| && init[j].0 == name ==> init[j].1 == "";
          assert fields[i] == (name, v);
          forall j | i < j < |fields| && fields[j].0 == name
            ensures fields[j].1 == ""
          {
            if j < n {
              assert init[j] == fields[j];
            }
          }
        }
      }
    }
  }

  /** A query of one non-blank field gives one keyword argument. */
  lemma ParseSingleField(name: string, value: string)
    requires value != ""
    ensures ParseQuery([(name, value)]) == map[name := value]
  {
    assert [(name, value)][..0] == [];
  }

  /** A query of one blank field gives no keyword argument at all. */
  lemma ParseBlankField(name: string)
    ensures ParseQuery([(name, "")]) == map[]
  {
    assert [(name, "")][..0] == [];
  }
}
