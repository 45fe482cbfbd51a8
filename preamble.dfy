/**
 * Variable preambles: SQL text prepended to a query so that the variables of
 * its variable map exist when the statement runs. MySQL gets one
 * `SET @k = v; ` per entry; SQL Server gets one `DECLARE @k T = v; ` per
 * entry of the shape `{dataType: T, value: v}` and skips every other entry.
 * A value is wrapped in single quotes exactly when it is a string; nothing is
 * escaped.
 */
module Preamble {
  import opened Wrappers
  import opened ObjectEntries
  import opened JsValues

  /** `${isString(v) ? "'" : ''}${v}${isString(v) ? "'" : ''}`. */
  function QuotedValue(v: Value): string
  {
    if IsString(v) then "'" + v.value.s + "'" else ToJsString(v)
  }

  /** The text one MySQL entry contributes. */
  function SetStatement(key: string, value: Json): string
  {
    "SET @" + key + " = " + QuotedValue(Some(value)) + "; "
  }

  /** The MySQL reducer: a left fold appending one `SET` per entry to the accumulator `''`. */
  function SetPreamble(entries: seq<(string, Json)>): string
  {
    if entries == [] then ""
    else
      var last := entries[|entries| - 1];
      SetPreamble(entries[..|entries| - 1]) + SetStatement(last.0, last.1)
  }

  /** An entry SQL Server declares: an object (arrays pass the test) with a string `dataType`. */
  predicate Declarable(value: Json)
  {
    IsObjectType(Some(value)) && IsString(Prop(Some(value), "dataType"))
  }

  /** The older service's guard, `Object.isObject(value) && Object.isString(value.dataType)`. */
  predicate DeclarableLegacy(value: Json)
  {
    IsPlainObject(Some(value)) && IsString(Prop(Some(value), "dataType"))
  }

  /** Both guards accept the same entries: an array never has a `dataType` property. */
  lemma DeclarableGuardsAgree(value: Json)
    ensures Declarable(value) <==> DeclarableLegacy(value)
  {
  }

  /** The text one SQL Server entry contributes, if it is declarable. */
  function DeclareStatement(key: string, value: Json): (r: Option<string>)
    ensures r.Some? <==> Declarable(value)
  {
    if Declarable(value) then
      var spec := Some(value);
      Some("DECLARE @" + key + " " + Prop(spec, "dataType").value.s + " = "
           + QuotedValue(Prop(spec, "value")) + "; ")
    else None
  }

  /** The SQL Server reducer: a left fold that appends only declarable entries. */
  function DeclarePreamble(entries: seq<(string, Json)>): string
  {
    if entries == [] then ""
    else
      var last := entries[|entries| - 1];
      var stmt := DeclareStatement(last.0, last.1);
      DeclarePreamble(entries[..|entries| - 1]) + (if stmt.Some? then stmt.value else "")
  }

  /** Concatenation of a list of statements, in order. */
  function Concat(parts: seq<string>): string
  {
    if parts == [] then "" else parts[0] + Concat(parts[1..])
  }

  lemma {:induction false} ConcatSnoc(parts: seq<string>, p: string)
    ensures Concat(parts + [p]) == Concat(parts) + p
  {
    if parts == [] {
      assert [] + [p] == [p];
    } else {
      assert (parts + [p])[1..] == parts[1..] + [p];
      ConcatSnoc(parts[1..], p);
    }
  }

  /** One `SET` statement per entry, in entry order. */
  function SetStatements(entries: seq<(string, Json)>): (r: seq<string>)
    ensures |r| == |entries|
    ensures forall i :: 0 <= i < |entries| ==> r[i] == SetStatement(entries[i].0, entries[i].1)
  {
    if entries == [] then []
    else
      var init := entries[..|entries| - 1];
      var last := entries[|entries| - 1];
      assert forall i :: 0 <= i < |init| ==> init[i] == entries[i];
      SetStatements(init) + [SetStatement(last.0, last.1)]
  }

  /**
   * Each entry contributes exactly its own `SET @k = v; `, in the order of
   * the entries, and nothing else is emitted.
   */
  lemma {:induction false} SetPreambleIsConcat(entries: seq<(string, Json)>)
    ensures SetPreamble(entries) == Concat(SetStatements(entries))
  {
    if entries != [] {
      var init := entries[..|entries| - 1];
      var last := entries[|entries| - 1];
      SetPreambleIsConcat(init);
      ConcatSnoc(SetStatements(init), SetStatement(last.0, last.1));
    }
  }

  /** The statements of the declarable entries, in entry order; the rest are dropped. */
  function DeclareStatements(entries: seq<(string, Json)>): (r: seq<string>)
    ensures |r| <= |entries|
    ensures forall i :: 0 <= i < |r| ==>
              exists j :: 0 <= j < |entries| && DeclareStatement(entries[j].0, entries[j].1) == Some(r[i])
    ensures (forall j :: 0 <= j < |entries| ==> Declarable(entries[j].1)) ==> |r| == |entries|
  {
    if entries == [] then []
    else
      var init := entries[..|entries| - 1];
      var last := entries[|entries| - 1];
      assert forall j :: 0 <= j < |init| ==> init[j] == entries[j];
      var stmt := DeclareStatement(last.0, last.1);
      DeclareStatements(init) + (if stmt.Some? then [stmt.value] else [])
  }

  /**
   * The statement list keeps the entries' order: the list of a concatenation
   * is the concatenation of the lists.
   */
  lemma {:induction false} DeclareStatementsAppend(a: seq<(string, Json)>, b: seq<(string, Json)>)
    ensures DeclareStatements(a + b) == DeclareStatements(a) + DeclareStatements(b)
  {
    if b == [] {
      assert a + b == a;
    } else {
      var init := b[..|b| - 1];
      var last := b[|b| - 1];
      assert b == init + [last];
      assert a + b == (a + init) + [last];
      var x, y, z := DeclareStatements(a), DeclareStatements(init), DeclaredList(last);
      assert (x + y) + z == x + (y + z);
      DeclareStatementsAppend(a, init);
      DeclareStatementsSnoc(a + init, last);
      DeclareStatementsSnoc(init, last);
    }
  }

  /** An entry appended at the end contributes its own statement, or nothing, at the end. */
  lemma DeclareStatementsSnoc(es: seq<(string, Json)>, e: (string, Json))
    ensures DeclareStatements(es + [e]) == DeclareStatements(es) + DeclaredList(e)
    ensures DeclareStatements([e]) == DeclaredList(e)
  {
    assert (es + [e])[..|es|] == es;
    assert [e][..0] == [];
  }

  /** The statements one entry contributes: its own, or none when it is skipped. */
  function DeclaredList(e: (string, Json)): seq<string>
  {
    var stmt := DeclareStatement(e.0, e.1);
    if stmt.Some? then [stmt.value] else []
  }

  /** The SQL Server preamble is the concatenation of the declarable entries' statements. */
  lemma {:induction false} DeclarePreambleIsConcat(entries: seq<(string, Json)>)
    ensures DeclarePreamble(entries) == Concat(DeclareStatements(entries))
  {
    if entries != [] {
      var init := entries[..|entries| - 1];
      var last := entries[|entries| - 1];
      DeclarePreambleIsConcat(init);
      var stmt := DeclareStatement(last.0, last.1);
      if stmt.Some? {
        ConcatSnoc(DeclareStatements(init), stmt.value);
      } else {
        assert DeclareStatements(init) + [] == DeclareStatements(init);
      }
    }
  }

  /** The MySQL reducer distributes over concatenation of entry lists. */
  lemma {:induction false} SetPreambleAppend(a: seq<(string, Json)>, b: seq<(string, Json)>)
    ensures SetPreamble(a + b) == SetPreamble(a) + SetPreamble(b)
  {
    if b == [] {
      assert a + b == a;
    } else {
      var init := b[..|b| - 1];
      var last := b[|b| - 1];
      assert b == init + [last];
      assert a + b == (a + init) + [last];
      var x, y, z := SetPreamble(a), SetPreamble(init), SetStatement(last.0, last.1);
      assert (x + y) + z == x + (y + z);
      SetPreambleAppend(a, init);
      SetPreambleSnoc(a + init, last);
      SetPreambleSnoc(init, last);
    }
  }

  lemma SetPreambleSnoc(es: seq<(string, Json)>, e: (string, Json))
    ensures SetPreamble(es + [e]) == SetPreamble(es) + SetStatement(e.0, e.1)
  {
    assert (es + [e])[..|es|] == es;
  }

  /** The SQL Server reducer distributes over concatenation of entry lists. */
  lemma {:induction false} DeclarePreambleAppend(a: seq<(string, Json)>, b: seq<(string, Json)>)
    ensures DeclarePreamble(a + b) == DeclarePreamble(a) + DeclarePreamble(b)
  {
    if b == [] {
      assert a + b == a;
    } else {
      var init := b[..|b| - 1];
      var last := b[|b| - 1];
      assert b == init + [last];
      assert a + b == (a + init) + [last];
      var x, y, z := DeclarePreamble(a), DeclarePreamble(init), DeclaredText(last);
      assert (x + y) + z == x + (y + z);
      DeclarePreambleAppend(a, init);
      DeclarePreambleSnoc(a + init, last);
      DeclarePreambleSnoc(init, last);
    }
  }

  /** The text one entry contributes to the SQL Server preamble, empty when it is skipped. */
  function DeclaredText(e: (string, Json)): string
  {
    var stmt := DeclareStatement(e.0, e.1);
    if stmt.Some? then stmt.value else ""
  }

  lemma DeclarePreambleSnoc(es: seq<(string, Json)>, e: (string, Json))
    ensures DeclarePreamble(es + [e]) == DeclarePreamble(es) + DeclaredText(e)
  {
    assert (es + [e])[..|es|] == es;
  }

  /** An entry that is not declarable leaves the SQL Server preamble as if it were absent. */
  lemma SkippedEntryContributesNothing(a: seq<(string, Json)>, key: string, value: Json, b: seq<(string, Json)>)
    requires !Declarable(value)
    ensures DeclarePreamble(a + [(key, value)] + b) == DeclarePreamble(a + b)
  {
    var one := [(key, value)];
    DeclarePreambleAppend(a + one, b);
    DeclarePreambleAppend(a, one);
    DeclarePreambleAppend(a, b);
    assert one[..0] == [];
    assert DeclarePreamble(one) == "";
  }

  /**
   * The older service uses the `DECLARE` reducer for MySQL as well: a variable
   * map of plain values, which the live `SET` reducer renders one statement
   * per entry, yields no preamble at all there.
   */
  lemma {:induction false} PlainValuesDeclareNothing(entries: seq<(string, Json)>)
    requires forall i :: 0 <= i < |entries| ==> !entries[i].1.JObj? && !entries[i].1.JArr?
    ensures DeclarePreamble(entries) == ""
    ensures entries != [] ==> SetPreamble(entries) != ""
  {
    if entries != [] {
      var init := entries[..|entries| - 1];
      assert forall i :: 0 <= i < |init| ==> init[i] == entries[i];
      PlainValuesDeclareNothing(init);
      var last := entries[|entries| - 1];
      assert |SetStatement(last.0, last.1)| > 0;
    }
  }

  /** A number is written unquoted, in decimal. */
  lemma SetStatementWritesNumbers(key: string, n: int)
    ensures SetStatement(key, JNum(n)) == "SET @" + key + " = " + IntToDecimal(n) + "; "
  {
  }

  /** Any value other than a string is written unquoted, as its template-literal text. */
  lemma SetStatementWritesNonStrings(key: string, v: Json)
    requires !v.JStr?
    ensures SetStatement(key, v) == "SET @" + key + " = " + ToJsString(Some(v)) + "; "
  {
  }

  /** A string is written between single quotes, unescaped. */
  lemma SetStatementQuotesStrings(key: string, s: string)
    ensures SetStatement(key, JStr(s)) == "SET @" + key + " = '" + s + "'; "
  {
  }

  /** Example: `{x: 5, y: "abc"}` under MySQL. */
  lemma SetPreambleExample()
    ensures SetPreamble([("x", JNum(5)), ("y", JStr("abc"))]) == "SET @x = 5; SET @y = 'abc'; "
  {
    var x, y := ("x", JNum(5)), ("y", JStr("abc"));
    SetPreambleOfTwo(x, y);
    SetStatementWritesNumbers("x", 5);
    SetStatementQuotesStrings("y", "abc");
    assert IntToDecimal(5) == "5";
    var sx, sy := SetStatement(x.0, x.1), SetStatement(y.0, y.1);
    assert sx + sy == "SET @x = 5; SET @y = 'abc'; ";
  }

  lemma SetPreambleOfTwo(x: (string, Json), y: (string, Json))
    ensures SetPreamble([x, y]) == SetStatement(x.0, x.1) + SetStatement(y.0, y.1)
  {
    var sx, sy := SetStatement(x.0, x.1), SetStatement(y.0, y.1);
    assert [x][..0] == [];
    assert SetPreamble([x]) == "" + sx;
    assert [x, y][..1] == [x];
    assert SetPreamble([x, y]) == SetPreamble([x]) + sy;
    assert "" + sx == sx;
  }

  /**
   * A declarable entry with a string value gets it single-quoted. The fields
   * are read by name, so their order and any other fields play no part.
   */
  lemma DeclareStatementQuotesStrings(key: string, fields: seq<(string, Json)>, dataType: string, s: string)
    requires Lookup(fields, "dataType") == Some(JStr(dataType))
    requires Lookup(fields, "value") == Some(JStr(s))
    ensures DeclareStatement(key, JObj(fields))
         == Some("DECLARE @" + key + " " + dataType + " = '" + s + "'; ")
  {
    assert QuotedValue(Some(JStr(s))) == "'" + s + "'";
    var a := "DECLARE @" + key + " " + dataType;
    assert (a + " = ") + ("'" + s + "'") == a + " = '" + s + "'";
    assert a + " = '" + s + "'" + "; " == a + " = '" + s + "'; ";
  }

  /** A declarable entry whose value is not a string gets it unquoted, as its template-literal text. */
  lemma DeclareStatementWritesNonStrings(key: string, fields: seq<(string, Json)>, dataType: string, v: Json)
    requires Lookup(fields, "dataType") == Some(JStr(dataType))
    requires Lookup(fields, "value") == Some(v)
    requires !v.JStr?
    ensures DeclareStatement(key, JObj(fields))
         == Some("DECLARE @" + key + " " + dataType + " = " + ToJsString(Some(v)) + "; ")
  {
  }

  /** A declarable entry without `value` declares `undefined`. */
  lemma DeclareStatementMissingValue(key: string, fields: seq<(string, Json)>, dataType: string)
    requires Lookup(fields, "dataType") == Some(JStr(dataType))
    requires Lookup(fields, "value") == None
    ensures DeclareStatement(key, JObj(fields))
         == Some("DECLARE @" + key + " " + dataType + " = undefined; ")
  {
    assert QuotedValue(None) == "undefined";
    var a := "DECLARE @" + key + " " + dataType;
    assert a + " = " + "undefined" + "; " == a + " = undefined; ";
  }

  /** An entry whose `dataType` is missing or not a string is skipped, whatever else it holds. */
  lemma DeclareStatementNeedsStringType(key: string, fields: seq<(string, Json)>)
    requires Lookup(fields, "dataType").None? || !Lookup(fields, "dataType").value.JStr?
    ensures DeclareStatement(key, JObj(fields)).None?
  {
  }
}
