/** The dynamic `UPDATE images SET ... WHERE id = $n` statement that the
    backend's `updateImage` handler builds from the form fields it was sent.
    `BuildUpdate` follows the handler step by step (append a clause with a
    trailing comma, bind its value, count the parameter; trim the last comma;
    add the WHERE clause); `PlannedUpdate` says declaratively which statement
    comes out, and the lemmas state what PostgreSQL will make of it. */
module UpdateQuery {
  import opened Wrappers
  import opened GoStd
  import opened SqlText

  /** The three form fields the handler reads; "" means "not sent". */
  datatype UpdateForm = UpdateForm(name: string, categoryID: string, description: string)

  datatype Column = NameColumn | CategoryColumn | DescriptionColumn

  function ColumnName(c: Column): string {
    match c
    case NameColumn => "name"
    case CategoryColumn => "category_id"
    case DescriptionColumn => "description"
  }

  /** The position of a column in the handler's fixed order. */
  function ColumnRank(c: Column): nat {
    match c
    case NameColumn => 0
    case CategoryColumn => 1
    case DescriptionColumn => 2
  }

  /** The form field that feeds a column. */
  function FieldOf(f: UpdateForm, c: Column): string {
    match c
    case NameColumn => f.name
    case CategoryColumn => f.categoryID
    case DescriptionColumn => f.description
  }

  /** A bound parameter: the handler passes Go strings and ints. */
  datatype Param = Text(s: string) | Int(n: int)

  datatype Assignment = Assignment(column: Column, value: Param)

  datatype Statement = Statement(query: string, params: seq<Param>)

  const UpdateHead := "UPDATE images SET"
  const InvalidCategory := "Invalid category ID"

  predicate NothingToUpdate(f: UpdateForm) {
    f.name == "" && f.categoryID == "" && f.description == ""
  }

  /** The assignments of an update: one per non-empty field, name first,
      then category_id (parsed with `strconv.Atoi`), then description; `None`
      when category_id is given but is not an integer. */
  function Planned(f: UpdateForm): (r: Option<seq<Assignment>>)
    ensures r.None? <==> f.categoryID != "" && Atoi(f.categoryID).None?
  {
    if f.categoryID != "" && Atoi(f.categoryID).None? then None
    else
      Some((if f.name != "" then [Assignment(NameColumn, Text(f.name))] else [])
        + (if f.categoryID != "" then [Assignment(CategoryColumn, Int(Atoi(f.categoryID).value))] else [])
        + (if f.description != "" then [Assignment(DescriptionColumn, Text(f.description))] else []))
  }

  /** " column = $n" */
  function SetClause(a: Assignment, n: nat): string {
    " " + ColumnName(a.column) + " = $" + Itoa(n)
  }

  /** The SET list: the clauses numbered from `n`, separated by commas. */
  function SetList(plan: seq<Assignment>, n: nat): string
    decreases |plan|
  {
    if plan == [] then ""
    else if |plan| == 1 then SetClause(plan[0], n)
    else SetClause(plan[0], n) + "," + SetList(plan[1..], n + 1)
  }

  function Values(plan: seq<Assignment>): (vs: seq<Param>)
    ensures |vs| == |plan| && forall i :: 0 <= i < |plan| ==> vs[i] == plan[i].value
  {
    seq(|plan|, i requires 0 <= i < |plan| => plan[i].value)
  }

  function WhereClause(n: nat): string {
    " WHERE id = $" + Itoa(n)
  }

  /** The statement that performs `plan` on image `imageID`. */
  function Render(plan: seq<Assignment>, imageID: int): Statement {
    Statement(UpdateHead + SetList(plan, 1) + WhereClause(|plan| + 1), Values(plan) + [Int(imageID)])
  }

  /** The statement the handler executes for a form, or its rejection. */
  function PlannedUpdate(f: UpdateForm, imageID: int): Result<Statement, string> {
    match Planned(f)
    case None => Failure(InvalidCategory)
    case Some(plan) => Success(Render(plan, imageID))
  }

  /** The clauses as the builder appends them, each with its comma. */
  ghost function Terminated(plan: seq<Assignment>, n: nat): string
    decreases |plan|
  {
    if plan == [] then "" else SetClause(plan[0], n) + "," + Terminated(plan[1..], n + 1)
  }

  lemma {:induction false} TerminatedSnoc(plan: seq<Assignment>, a: Assignment, n: nat, m: nat)
    requires m == n + |plan|
    ensures Terminated(plan + [a], n) == Terminated(plan, n) + SetClause(a, m) + ","
    decreases |plan|, 1
  {
    if plan == [] {
      TerminatedSnocNil(plan, a, n, m);
    } else {
      TerminatedSnocCons(plan, a, n, m);
    }
  }

  lemma TerminatedSnocNil(plan: seq<Assignment>, a: Assignment, n: nat, m: nat)
    requires plan == [] && m == n
    ensures Terminated(plan + [a], n) == Terminated(plan, n) + SetClause(a, m) + ","
  {
    assert plan + [a] == [a];
    var last := SetClause(a, m);
    assert [a][1..] == [];
    assert Terminated([a], n) == last + "," + Terminated([], n + 1);
    EmptyPrefix(Terminated(plan, n), last + ",");
  }

  lemma {:induction false} TerminatedSnocCons(plan: seq<Assignment>, a: Assignment, n: nat, m: nat)
    requires plan != [] && m == n + |plan|
    ensures Terminated(plan + [a], n) == Terminated(plan, n) + SetClause(a, m) + ","
    decreases |plan|, 0
  {
    var first := SetClause(plan[0], n) + ",";
    var last := SetClause(a, m);
    assert (plan + [a])[0] == plan[0] && (plan + [a])[1..] == plan[1..] + [a];
    assert Terminated(plan + [a], n) == first + Terminated(plan[1..] + [a], n + 1);
    TerminatedSnoc(plan[1..], a, n + 1, m);
    assert Terminated(plan, n) == first + Terminated(plan[1..], n + 1);
    SnocChain(Terminated(plan + [a], n), Terminated(plan, n), first,
              Terminated(plan[1..] + [a], n + 1), Terminated(plan[1..], n + 1), last);
  }

  lemma SnocChain(wholeA: string, whole: string, first: string, restA: string, rest: string, last: string)
    requires wholeA == first + restA && restA == rest + last + "," && whole == first + rest
    ensures wholeA == whole + last + ","
  {
  }

  lemma EmptyPrefix(e: string, x: string)
    requires e == ""
    ensures e + x == x
  {
  }

  lemma {:induction false} TerminatedIsSetList(plan: seq<Assignment>, n: nat)
    requires plan != []
    ensures Terminated(plan, n) == SetList(plan, n) + ","
    decreases |plan|
  {
    if |plan| > 1 {
      TerminatedIsSetList(plan[1..], n + 1);
    }
  }

  /** What the builder holds once it has handled the assignments `done`. */
  ghost predicate Built(query: string, params: seq<Param>, paramCount: int, done: seq<Assignment>) {
    query == UpdateHead + Terminated(done, 1) && params == Values(done) && paramCount == |done| + 1
  }

  /** One step of the builder: appending "<clauseHead>$k," and the value of
      the next assignment extends what was built by that assignment. */
  lemma AppendClause(query: string, params: seq<Param>, done: seq<Assignment>, a: Assignment, clauseHead: string)
    requires Built(query, params, |done| + 1, done)
    requires clauseHead == " " + ColumnName(a.column) + " = $"
    ensures Built(query + clauseHead + Itoa(|done| + 1) + ",", params + [a.value], |done| + 2, done + [a])
  {
    var t := Terminated(done, 1);
    var numeral := Itoa(|done| + 1);
    var clause := SetClause(a, |done| + 1);
    TerminatedSnoc(done, a, 1, |done| + 1);
    assert clause == clauseHead + numeral;
    Concat(UpdateHead, t, clauseHead, numeral, clause);
    ValuesSnoc(done, a);
  }

  lemma ValuesSnoc(plan: seq<Assignment>, a: Assignment)
    ensures Values(plan + [a]) == Values(plan) + [a.value]
  {
    var l := Values(plan + [a]);
    var r := Values(plan) + [a.value];
    forall i | 0 <= i < |l|
      ensures l[i] == r[i]
    {
      if i < |plan| {
        assert (plan + [a])[i] == plan[i];
      }
    }
  }

  lemma Concat(q: string, t: string, ch: string, numeral: string, clause: string)
    requires clause == ch + numeral
    ensures q + t + ch + numeral + "," == q + (t + clause + ",")
  {
  }

  /** The builder's last step: trimming the final comma, adding the WHERE
      clause and binding the id last gives the planned statement. */
  lemma FinishStatement(f: UpdateForm, query: string, params: seq<Param>, paramCount: nat,
                        done: seq<Assignment>, imageID: int)
    requires Built(query, params, paramCount, done)
    requires Planned(f) == Some(done)
    ensures Success(Statement(TrimSuffix(query, ",") + " WHERE id = $" + Itoa(paramCount), params + [Int(imageID)]))
         == PlannedUpdate(f, imageID)
  {
    FinishQuery(query, done, imageID);
    assert PlannedUpdate(f, imageID) == Success(Render(done, imageID));
  }

  /** The text of the builder's last step. */
  lemma FinishQuery(query: string, done: seq<Assignment>, imageID: int)
    requires query == UpdateHead + Terminated(done, 1)
    ensures TrimSuffix(query, ",") + " WHERE id = $" + Itoa(|done| + 1) == Render(done, imageID).query
  {
    var head := UpdateHead + SetList(done, 1);
    TrimmedHead(query, done, head);
    Concat3(head, " WHERE id = $", Itoa(|done| + 1));
  }

  /** Trimming the comma after the last clause leaves the SET list; with no
      clause there is no comma to trim. */
  lemma TrimmedHead(query: string, done: seq<Assignment>, head: string)
    requires query == UpdateHead + Terminated(done, 1)
    requires head == UpdateHead + SetList(done, 1)
    ensures TrimSuffix(query, ",") == head
  {
    if done == [] {
      assert query == head;
      NoTrailingComma(head);
    } else {
      TerminatedIsSetList(done, 1);
      AppendComma(UpdateHead, SetList(done, 1), head);
      TrimComma(head);
    }
  }

  lemma NoTrailingComma(s: string)
    requires s == UpdateHead
    ensures TrimSuffix(s, ",") == s
  {
    assert s[|s| - 1..] == "T";
  }

  lemma AppendComma(h: string, list: string, head: string)
    requires head == h + list
    ensures h + (list + ",") == head + ","
  {
  }

  lemma TrimComma(s: string)
    ensures TrimSuffix(s + ",", ",") == s
  {
    assert (s + ",")[|s|..] == ",";
  }

  lemma Concat3(a: string, b: string, c: string)
    ensures a + b + c == a + (b + c)
  {
  }

  /** `updateImage`'s query builder (entrypoint.go, lines 574-604). */
  method BuildUpdate(f: UpdateForm, imageID: int) returns (r: Result<Statement, string>)
    ensures r == PlannedUpdate(f, imageID)
  {
    var query := UpdateHead;
    var params: seq<Param> := [];
    var paramCount: nat := 1;
    ghost var done: seq<Assignment> := [];
    ClauseHeads();
    assert Built(query, params, paramCount, done);

    if f.name != "" {
      AppendClause(query, params, done, Assignment(NameColumn, Text(f.name)), " name = $");
      query := query + " name = $" + Itoa(paramCount) + ",";
      params := params + [Text(f.name)];
      paramCount := paramCount + 1;
      done := done + [Assignment(NameColumn, Text(f.name))];
    }
    assert Built(query, params, paramCount, done);
    ghost var named := done;

    if f.categoryID != "" {
      var categoryID := Atoi(f.categoryID);
      if categoryID.None? {
        assert PlannedUpdate(f, imageID) == Failure(InvalidCategory);
        return Failure(InvalidCategory);
      }
      AppendClause(query, params, done, Assignment(CategoryColumn, Int(categoryID.value)), " category_id = $");
      query := query + " category_id = $" + Itoa(paramCount) + ",";
      params := params + [Int(categoryID.value)];
      paramCount := paramCount + 1;
      done := done + [Assignment(CategoryColumn, Int(categoryID.value))];
    }
    assert Built(query, params, paramCount, done);
    ghost var categorized := done;

    if f.description != "" {
      AppendClause(query, params, done, Assignment(DescriptionColumn, Text(f.description)), " description = $");
      query := query + " description = $" + Itoa(paramCount) + ",";
      params := params + [Text(f.description)];
      paramCount := paramCount + 1;
      done := done + [Assignment(DescriptionColumn, Text(f.description))];
    }
    assert Built(query, params, paramCount, done);
    PlannedSteps(f, named, categorized, done);
    FinishStatement(f, query, params, paramCount, done, imageID);
    query := TrimSuffix(query, ",") + " WHERE id = $" + Itoa(paramCount);
    params := params + [Int(imageID)];
    r := Success(Statement(query, params));
  }

  /** The text `fmt.Sprintf` puts before each placeholder number. */
  lemma ClauseHeads()
    ensures " name = $" == " " + ColumnName(NameColumn) + " = $"
    ensures " category_id = $" == " " + ColumnName(CategoryColumn) + " = $"
    ensures " description = $" == " " + ColumnName(DescriptionColumn) + " = $"
  {
  }

  /** The assignments the builder handled, field by field, are the plan. */
  lemma PlannedSteps(f: UpdateForm, named: seq<Assignment>, categorized: seq<Assignment>, done: seq<Assignment>)
    requires Planned(f).Some?
    requires named == (if f.name != "" then [Assignment(NameColumn, Text(f.name))] else [])
    requires categorized == named + (if f.categoryID != "" then [Assignment(CategoryColumn, Int(Atoi(f.categoryID).value))] else [])
    requires done == categorized + (if f.description != "" then [Assignment(DescriptionColumn, Text(f.description))] else [])
    ensures Planned(f) == Some(done)
  {
  }

  // ----- What the planned statement is -----

  /** The SET list names exactly the non-empty fields, each at most once, in
      the order name, category_id, description, and binds each to its field's
      value. */
  lemma PlannedColumns(f: UpdateForm)
    requires Planned(f).Some?
    ensures var plan := Planned(f).value;
      && (forall c :: (exists i :: 0 <= i < |plan| && plan[i].column == c) <==> FieldOf(f, c) != "")
      && (forall i, j :: 0 <= i < j < |plan| ==> ColumnRank(plan[i].column) < ColumnRank(plan[j].column))
      && (forall i :: 0 <= i < |plan| && plan[i].column != CategoryColumn ==> plan[i].value == Text(FieldOf(f, plan[i].column)))
      && (forall i :: 0 <= i < |plan| && plan[i].column == CategoryColumn ==>
            Atoi(f.categoryID).Some? && plan[i].value == Int(Atoi(f.categoryID).value))
  {
    var plan := Planned(f).value;
    forall c ensures (exists i :: 0 <= i < |plan| && plan[i].column == c) <==> FieldOf(f, c) != "" {
      if FieldOf(f, c) != "" {
        var i := if c == NameColumn then 0
          else if c == CategoryColumn then (if f.name != "" then 1 else 0)
          else (if f.name != "" then 1 else 0) + (if f.categoryID != "" then 1 else 0);
        assert plan[i].column == c;
      }
    }
  }

  /** Text without `$` contributes no placeholder, whatever follows it. */
  lemma LiteralThen(lit: string, s: string)
    requires DollarFree(lit)
    requires s == [] || !IsDigit(s[0])
    ensures Placeholders(lit + s) == Placeholders(s)
  {
    PlaceholdersNoDollar(lit);
    PlaceholdersAppend(lit, s);
  }

  lemma ClauseHeadDollarFree(c: Column)
    ensures DollarFree(" " + ColumnName(c) + " = ")
  {
    assert DollarFree(ColumnName(c));
    DollarFreeAppend(" ", ColumnName(c));
    DollarFreeAppend(" " + ColumnName(c), " = ");
  }

  lemma DollarFreeAppend(a: string, b: string)
    requires DollarFree(a) && DollarFree(b)
    ensures DollarFree(a + b)
  {
  }

  lemma ClausePlaceholders(a: Assignment, n: nat)
    ensures Placeholders(SetClause(a, n)) == [n]
  {
    var lit := " " + ColumnName(a.column) + " = ";
    ClauseHeadDollarFree(a.column);
    assert SetClause(a, n) == lit + ("$" + Itoa(n));
    LiteralThen(lit, "$" + Itoa(n));
    PlaceholderNumeral(n);
  }

  /** A non-empty SET list starts with a space and ends with a digit. */
  lemma {:induction false} SetListEnds(plan: seq<Assignment>, n: nat)
    requires plan != []
    ensures var list := SetList(plan, n); list[0] == ' ' && IsDigit(list[|list| - 1])
    decreases |plan|
  {
    var head := SetClause(plan[0], n);
    var numeral := Itoa(n);
    assert head == (" " + ColumnName(plan[0].column) + " = $") + numeral;
    assert head[|head| - 1] == numeral[|numeral| - 1];
    if |plan| > 1 {
      SetListEnds(plan[1..], n + 1);
      var rest := SetList(plan[1..], n + 1);
      assert SetList(plan, n) == head + ("," + rest);
    }
  }

  lemma {:induction false} SetListPlaceholders(plan: seq<Assignment>, n: nat)
    ensures Placeholders(SetList(plan, n)) == Consecutive(n, |plan|)
    decreases |plan|
  {
    if |plan| == 1 {
      ClausePlaceholders(plan[0], n);
    } else if |plan| > 1 {
      SetListPlaceholders(plan[1..], n + 1);
      SetListStep(plan, n);
    }
  }

  lemma SetListStep(plan: seq<Assignment>, n: nat)
    requires |plan| > 1
    requires Placeholders(SetList(plan[1..], n + 1)) == Consecutive(n + 1, |plan| - 1)
    ensures Placeholders(SetList(plan, n)) == Consecutive(n, |plan|)
  {
    var head := SetClause(plan[0], n);
    var rest := SetList(plan[1..], n + 1);
    SetListEnds(plan[1..], n + 1);
    ClausePlaceholders(plan[0], n);
    assert SetList(plan, n) == head + ("," + rest);
    CommaJoinPlaceholders(head, rest, n, |plan| - 1);
  }

  /** Joining clause `$n` to the clauses `$(n+1)`... with a comma keeps the
      numbers consecutive. */
  lemma CommaJoinPlaceholders(head: string, rest: string, n: nat, count: nat)
    requires Placeholders(head) == [n]
    requires Placeholders(rest) == Consecutive(n + 1, count)
    requires rest == [] || !IsDigit(rest[0])
    ensures Placeholders(head + ("," + rest)) == Consecutive(n, count + 1)
  {
    PlaceholdersAppend(head, "," + rest);
    assert DollarFree(",");
    LiteralThen(",", rest);
    ConsecutiveCons(n, count);
  }

  lemma ConsecutiveCons(first: nat, count: nat)
    ensures [first] + Consecutive(first + 1, count) == Consecutive(first, count + 1)
  {
  }

  lemma ConsecutiveSnoc(first: nat, count: nat)
    ensures Consecutive(first, count) + [first + count] == Consecutive(first, count + 1)
  {
  }

  /** The statement's placeholders are $1, $2, ..., $(k+1) in order, one per
      parameter, so the i-th placeholder binds the i-th parameter; the last
      parameter, bound by the WHERE clause, is the image id; and the SET list
      does not end in a comma before " WHERE". */
  lemma RenderWellFormed(plan: seq<Assignment>, imageID: int)
    ensures var st := Render(plan, imageID);
      && Placeholders(st.query) == Consecutive(1, |st.params|)
      && st.params[|st.params| - 1] == Int(imageID)
      && var head := UpdateHead + SetList(plan, 1);
         st.query == head + WhereClause(|plan| + 1) && head[|head| - 1] != ','
  {
    RenderPlaceholders(plan, imageID);
    HeadEnd(plan);
  }

  lemma RenderPlaceholders(plan: seq<Assignment>, imageID: int)
    ensures Placeholders(Render(plan, imageID).query) == Consecutive(1, |plan| + 1)
  {
    var list := SetList(plan, 1);
    var where := WhereClause(|plan| + 1);
    SetListPlaceholders(plan, 1);
    WherePlaceholders(|plan| + 1);
    AssemblePlaceholders(list, where, |plan|);
    var body := list + where;
    assert body[0] == ' ' by {
      if plan != [] {
        SetListEnds(plan, 1);
        assert body[0] == list[0];
      }
    }
    Concat3(UpdateHead, list, where);
    HeadThen(body);
  }

  /** The text before " WHERE" does not end in a comma. */
  lemma HeadEnd(plan: seq<Assignment>)
    ensures var head := UpdateHead + SetList(plan, 1); head[|head| - 1] != ','
  {
    var list := SetList(plan, 1);
    var head := UpdateHead + list;
    if plan != [] {
      SetListEnds(plan, 1);
      assert head[|head| - 1] == list[|list| - 1];
    } else {
      assert head == UpdateHead;
    }
  }

  lemma WherePlaceholders(n: nat)
    ensures Placeholders(WhereClause(n)) == [n]
    ensures WhereClause(n)[0] == ' '
  {
    var lit := " WHERE id = ";
    assert DollarFree(lit);
    assert WhereClause(n) == lit + ("$" + Itoa(n));
    LiteralThen(lit, "$" + Itoa(n));
    PlaceholderNumeral(n);
  }

  /** The SET list numbered from 1 followed by the WHERE clause numbered
      after it read as placeholders 1 to k+1. */
  lemma AssemblePlaceholders(list: string, where: string, k: nat)
    requires Placeholders(list) == Consecutive(1, k)
    requires Placeholders(where) == [k + 1]
    requires where[0] == ' '
    ensures Placeholders(list + where) == Consecutive(1, k + 1)
  {
    PlaceholdersAppend(list, where);
    ConsecutiveSnoc(1, k);
  }

  lemma HeadThen(s: string)
    requires s == [] || !IsDigit(s[0])
    ensures Placeholders(UpdateHead + s) == Placeholders(s)
  {
    assert DollarFree(UpdateHead);
    LiteralThen(UpdateHead, s);
  }

  /** Whatever the form, an accepted update is a well-formed statement whose
      parameters are the planned values followed by the image id. */
  lemma PlannedUpdateWellFormed(f: UpdateForm, imageID: int)
    requires PlannedUpdate(f, imageID).Success?
    ensures var st := PlannedUpdate(f, imageID).value;
      && Placeholders(st.query) == Consecutive(1, |st.params|)
      && st.params == Values(Planned(f).value) + [Int(imageID)]
  {
    RenderWellFormed(Planned(f).value, imageID);
  }

  /** All three fields given: the clauses are numbered $1 to $3 in the order
      name, category_id, description, and the id is $4. */
  lemma AllFieldsExample()
    ensures PlannedUpdate(UpdateForm("cat", "2", "a cat"), 7)
      == Success(Statement(UpdateHead + " name = $1" + "," + " category_id = $2" + "," + " description = $3"
                             + " WHERE id = $4",
                           [Text("cat"), Int(2), Text("a cat"), Int(7)]))
  {
    var f := UpdateForm("cat", "2", "a cat");
    var plan := [Assignment(NameColumn, Text("cat")), Assignment(CategoryColumn, Int(2)),
                 Assignment(DescriptionColumn, Text("a cat"))];
    assert Atoi("2") == Some(2);
    PlannedSteps(f, plan[..1], plan[..2], plan);
    AllFieldsText(plan);
  }

  lemma AllFieldsText(plan: seq<Assignment>)
    requires plan == [Assignment(NameColumn, Text("cat")), Assignment(CategoryColumn, Int(2)),
                      Assignment(DescriptionColumn, Text("a cat"))]
    ensures Render(plan, 7)
      == Statement(UpdateHead + " name = $1" + "," + " category_id = $2" + "," + " description = $3"
                     + " WHERE id = $4",
                   [Text("cat"), Int(2), Text("a cat"), Int(7)])
  {
    NameClauseText(plan[0], 1, " name = $1");
    CategoryClauseText(plan[1], 2, " category_id = $2");
    DescriptionClauseText(plan[2], 3, " description = $3");
    SetListOfThree(plan, 1, " name = $1", " category_id = $2", " description = $3");
    WhereText(4, " WHERE id = $4");
    JoinThree(UpdateHead, " name = $1", " category_id = $2", " description = $3", " WHERE id = $4");
    assert Values(plan) + [Int(7)] == [Text("cat"), Int(2), Text("a cat"), Int(7)];
  }

  lemma SetListOfThree(plan: seq<Assignment>, n: nat, t1: string, t2: string, t3: string)
    requires |plan| == 3
    requires SetClause(plan[0], n) == t1 && SetClause(plan[1], n + 1) == t2 && SetClause(plan[2], n + 2) == t3
    ensures SetList(plan, n) == t1 + "," + t2 + "," + t3
  {
    assert plan[1..][1..] == plan[2..];
    assert SetList(plan[2..], n + 2) == t3;
    assert SetList(plan[1..], n + 1) == t2 + "," + t3;
  }

  // JoinThree, NameClauseText, CategoryClauseText, DescriptionClauseText,
  // ClauseText, WhereText and DescriptionOnlyText state no property of the
  // builder: each spells out one literal string so that the worked examples
  // (AllFieldsExample, DescriptionOnlyExample) stay cheap for the solver.
  lemma JoinThree(head: string, t1: string, t2: string, t3: string, where: string)
    ensures head + (t1 + "," + t2 + "," + t3) + where == head + t1 + "," + t2 + "," + t3 + where
  {
  }

  /** The text of the clauses and WHERE clauses the examples use, one
      column at a time. */
  lemma NameClauseText(a: Assignment, n: nat, text: string)
    requires a.column == NameColumn && 1 <= n <= 4
    requires text == " name = $" + [DigitChar(n)]
    ensures SetClause(a, n) == text
  {
    ClauseText(a, n, " name = $", text);
  }

  lemma CategoryClauseText(a: Assignment, n: nat, text: string)
    requires a.column == CategoryColumn && 1 <= n <= 4
    requires text == " category_id = $" + [DigitChar(n)]
    ensures SetClause(a, n) == text
  {
    ClauseText(a, n, " category_id = $", text);
  }

  lemma DescriptionClauseText(a: Assignment, n: nat, text: string)
    requires a.column == DescriptionColumn && 1 <= n <= 4
    requires text == " description = $" + [DigitChar(n)]
    ensures SetClause(a, n) == text
  {
    ClauseText(a, n, " description = $", text);
  }

  lemma ClauseText(a: Assignment, n: nat, head: string, text: string)
    requires 1 <= n <= 4
    requires head == " " + ColumnName(a.column) + " = $"
    requires text == head + [DigitChar(n)]
    ensures SetClause(a, n) == text
  {
  }

  lemma WhereText(n: nat, text: string)
    requires 1 <= n <= 4
    requires text == " WHERE id = $" + [DigitChar(n)]
    ensures WhereClause(n) == text
  {
  }

  /** Only the description given: its placeholder is $1 and the id's is $2. */
  lemma DescriptionOnlyExample()
    ensures PlannedUpdate(UpdateForm("", "", "a cat"), 7)
      == Success(Statement(UpdateHead + " description = $1" + " WHERE id = $2", [Text("a cat"), Int(7)]))
  {
    var plan := [Assignment(DescriptionColumn, Text("a cat"))];
    PlannedSteps(UpdateForm("", "", "a cat"), [], [], plan);
    DescriptionOnlyText(plan);
  }

  lemma DescriptionOnlyText(plan: seq<Assignment>)
    requires plan == [Assignment(DescriptionColumn, Text("a cat"))]
    ensures Render(plan, 7) == Statement(UpdateHead + " description = $1" + " WHERE id = $2", [Text("a cat"), Int(7)])
  {
    DescriptionClauseText(plan[0], 1, " description = $1");
    assert SetList(plan, 1) == " description = $1";
    WhereText(2, " WHERE id = $2");
    assert Values(plan) + [Int(7)] == [Text("a cat"), Int(7)];
  }

  /** A category id that is not an integer rejects the whole update. */
  lemma BadCategoryExample()
    ensures PlannedUpdate(UpdateForm("cat", "two", ""), 7) == Failure(InvalidCategory)
  {
    assert !IsDigit('t');
  }
}
