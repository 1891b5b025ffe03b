/** The optional filters of `GET /api/grades` and `GET /api/classes` in
    index.js: each query-string value that is present and truthy pushes its
    value onto `queryParams` and adds a condition `<column> = $n` naming that
    value's position; the conditions are joined with `AND` behind a single
    `WHERE`, which is left out when there is no condition. */
module QueryFilters {
  import opened Text
  import opened Sql
  import opened Wrappers

  /** A query-string value is truthy in JavaScript when it is present and
      not the empty string. */
  predicate Truthy(v: Option<string>) {
    v.Some? && |v.value| > 0
  }

  /** One filter in push order: the column it compares and the value it
      pushes. */
  datatype Filter = Filter(column: string, value: string)

  const YearColumn: string := "SCHOOL_YEAR.id"
  const GradeColumn: string := "GRADE.id"

  /** The joins both listing queries share, closing their template
      literals. The query texts are written as concatenations of short
      pieces, which keeps the proofs that they hold no `$` and no `W`
      cheap for the verifier. */
  const JoinYear: string :=
    "\n        JOIN SCHOOL_YEAR ON" + " SCHOOL_YEAR.id = CLASS.year_id" + "\n    "

  /** The fixed part of the grades query (a template literal over four
      source lines). */
  const GradesBase: string :=
    "\n        SELECT GRADE.* FROM GRADE"
    + "\n        JOIN CLASS ON" + " CLASS.grade_id = GRADE.id"
    + JoinYear

  const GradesTail: string := " GROUP BY GRADE.ID ORDER BY GRADE.NUMBER"

  /** The fixed part of the classes query. */
  const ClassesBase: string :=
    "\n        SELECT CLASS.* FROM CLASS"
    + "\n        JOIN GRADE ON" + " CLASS.grade_id = GRADE.id"
    + JoinYear

  /** The filters of the grades query: the year, when truthy. */
  function GradeFilters(yearId: Option<string>): seq<Filter>
  {
    if Truthy(yearId) then [Filter(YearColumn, yearId.value)] else []
  }

  /** The filters of the classes query, in push order: the year, then the
      grade, each only when truthy. */
  function ClassFilters(yearId: Option<string>, gradeId: Option<string>): seq<Filter>
  {
    (if Truthy(yearId) then [Filter(YearColumn, yearId.value)] else [])
    + (if Truthy(gradeId) then [Filter(GradeColumn, gradeId.value)] else [])
  }

  /** `` `${column} = $${n}` ``. */
  function Condition(column: string, n: nat): string
  {
    column + " = " + ParamRef(n)
  }

  /** The conditions of the filters: the k-th (from 0) names `$(k + 1)`. */
  function Conditions(fs: seq<Filter>): seq<string>
  {
    seq(|fs|, k requires 0 <= k < |fs| => Condition(fs[k].column, k + 1))
  }

  /** What the filters append to the query. */
  function Where(fs: seq<Filter>): string
  {
    if |fs| == 0 then "" else " WHERE " + Join(Conditions(fs), " AND ")
  }

  /** The parameter array: the filters' values in push order. */
  function Values(fs: seq<Filter>): seq<string>
  {
    seq(|fs|, k requires 0 <= k < |fs| => fs[k].value)
  }

  /** `w` occurs in `s` at position `i`. */
  predicate OccursAt(s: string, w: string, i: nat) {
    i + |w| <= |s| && s[i..i + |w|] == w
  }

  /** `w` occurs in `s`. */
  ghost predicate Contains(s: string, w: string) {
    exists i: nat :: OccursAt(s, w, i)
  }

  /** The filters of either handler: only truthy values, each column free
      of `$` and of `W`. */
  predicate WellFormed(fs: seq<Filter>) {
    forall k :: 0 <= k < |fs| ==>
      |fs[k].value| > 0 && Avoids(fs[k].column, '$') && Avoids(fs[k].column, 'W')
  }

  lemma ConditionScans(column: string, n: nat)
    requires Avoids(column, '$')
    ensures ScansAs(Condition(column, n), [n])
  {
    forall rest: string | Delimited(rest)
      ensures Params(Condition(column, n) + rest) == [n] + Params(rest)
    {
      Regroup(column + " = ", ParamRef(n), rest);
      Regroup(column, " = ", ParamRef(n) + rest);
      ParamsOfPlain(column, " = " + (ParamRef(n) + rest));
      ParamsOfPlain(" = ", ParamRef(n) + rest);
      ParamRefScans(n, rest);
    }
  }

  /** The k-th condition references `$k` (counting from 1) and nothing else,
      so the placeholders of the filters' text are exactly the positions of
      their values in the parameter array. */
  lemma WhereScans(fs: seq<Filter>)
    requires WellFormed(fs)
    ensures ScansAs(Where(fs), Ordinals(|Values(fs)|))
  {
    if |fs| == 0 {
      forall rest: string | Delimited(rest)
        ensures Params(Where(fs) + rest) == Ordinals(0) + Params(rest)
      {
        assert Where(fs) + rest == rest;
      }
    } else {
      var conds := Conditions(fs);
      var es := seq(|fs|, k requires 0 <= k < |fs| => [k + 1]);
      forall k | 0 <= k < |fs|
        ensures ScansAs(conds[k], es[k])
      {
        ConditionScans(fs[k].column, k + 1);
      }
      JoinScans(conds, es, " AND ");
      FlattenSingletons(Ordinals(|fs|));
      assert es == seq(|fs|, k requires 0 <= k < |fs| => [Ordinals(|fs|)[k]]);
      var list := Join(conds, " AND ");
      forall rest: string | Delimited(rest)
        ensures Params(Where(fs) + rest) == Ordinals(|fs|) + Params(rest)
      {
        Regroup(" WHERE ", list, rest);
        ParamsOfPlain(" WHERE ", list + rest);
      }
    }
  }

  lemma AvoidsNotContains(s: string, w: string)
    requires |w| > 0 && Avoids(s, w[0])
    ensures !Contains(s, w)
  {
    forall i: nat | i + |w| <= |s|
      ensures !OccursAt(s, w, i)
    {
      assert s[i..i + |w|][0] == s[i];
    }
  }

  lemma JoinYearPlain(x: char)
    requires x == '$' || x == 'W'
    ensures Avoids(JoinYear, x)
  {
    var y1, y2, y3 := "\n        JOIN SCHOOL_YEAR ON", " SCHOOL_YEAR.id = CLASS.year_id", "\n    ";
    AvoidsAppend(y1, y2, x);
    AvoidsAppend(y1 + y2, y3, x);
  }

  /** The fixed text of both queries has no `$` and no `W`. */
  lemma TextPlain(x: char)
    requires x == '$' || x == 'W'
    ensures Avoids(GradesBase, x) && Avoids(ClassesBase, x) && Avoids(GradesTail, x)
  {
    JoinYearPlain(x);
    GradesBasePlain(x);
    ClassesBasePlain(x);
  }

  lemma GradesBasePlain(x: char)
    requires x == '$' || x == 'W'
    requires Avoids(JoinYear, x)
    ensures Avoids(GradesBase, x)
  {
    var g1, c1, c2 := "\n        SELECT GRADE.* FROM GRADE", "\n        JOIN CLASS ON", " CLASS.grade_id = GRADE.id";
    AvoidsAppend(g1, c1, x);
    AvoidsAppend(g1 + c1, c2, x);
    AvoidsAppend(g1 + c1 + c2, JoinYear, x);
  }

  lemma ClassesBasePlain(x: char)
    requires x == '$' || x == 'W'
    requires Avoids(JoinYear, x)
    ensures Avoids(ClassesBase, x)
  {
    var k1, k2, c2 := "\n        SELECT CLASS.* FROM CLASS", "\n        JOIN GRADE ON", " CLASS.grade_id = GRADE.id";
    AvoidsAppend(k1, k2, x);
    AvoidsAppend(k1 + k2, c2, x);
    AvoidsAppend(k1 + k2 + c2, JoinYear, x);
  }

  /** Around text without `W`, the word `WHERE` appears exactly when there is
      at least one filter. */
  lemma WhereIffFilters(before: string, fs: seq<Filter>, after: string)
    requires Avoids(before, 'W') && Avoids(after, 'W')
    ensures Contains(before + Where(fs) + after, "WHERE") <==> |fs| > 0
  {
    var s := before + Where(fs) + after;
    if |fs| > 0 {
      var i := |before| + 1;
      assert s[i..i + 5] == "WHERE";
      assert OccursAt(s, "WHERE", i);
    } else {
      assert s == before + after;
      AvoidsAppend(before, after, 'W');
      AvoidsNotContains(s, "WHERE");
    }
  }

  lemma ClassFiltersWellFormed(yearId: Option<string>, gradeId: Option<string>)
    ensures WellFormed(ClassFilters(yearId, gradeId))
  {
    assert Avoids(YearColumn, '$') && Avoids(YearColumn, 'W');
    assert Avoids(GradeColumn, '$') && Avoids(GradeColumn, 'W');
  }

  /** Which filters the classes handler applies: one per truthy value, the
      year's before the grade's, each pushing its own value; absent or empty
      values add nothing. */
  lemma ClassFiltersChosen(yearId: Option<string>, gradeId: Option<string>)
    ensures var fs := ClassFilters(yearId, gradeId);
      && |fs| == (if Truthy(yearId) then 1 else 0) + (if Truthy(gradeId) then 1 else 0)
      && (Truthy(yearId) ==> fs[0] == Filter(YearColumn, yearId.value))
      && (Truthy(gradeId) ==> fs[|fs| - 1] == Filter(GradeColumn, gradeId.value))
      && WellFormed(fs)
  {
    ClassFiltersWellFormed(yearId, gradeId);
  }

  /** `query.endsWith(tail)`. */
  predicate EndsWith(s: string, tail: string) {
    |tail| <= |s| && s[|s| - |tail|..] == tail
  }

  /** The grades query for `yearId`: at most one parameter, the truthy
      `yearId`, whose position its placeholder names; `WHERE` exactly when it
      is present; the grouping and ordering always last. */
  lemma GradesQueryMeaning(yearId: Option<string>)
    ensures var fs := GradeFilters(yearId);
      var q := GradesBase + Where(fs) + GradesTail;
      && |Values(fs)| <= 1 && (|Values(fs)| == 1 <==> Truthy(yearId))
      && Params(q) == Ordinals(|Values(fs)|)
      && (Contains(q, "WHERE") <==> Truthy(yearId))
      && EndsWith(q, GradesTail)
  {
    var fs := GradeFilters(yearId);
    assert Avoids(YearColumn, '$') && Avoids(YearColumn, 'W');
    assert WellFormed(fs);
    TextPlain('$');
    TextPlain('W');
    WhereScans(fs);
    Regroup(GradesBase, Where(fs), GradesTail);
    ParamsOfPlain(GradesBase, Where(fs) + GradesTail);
    ParamsOfPlain(GradesTail, "");
    assert GradesTail + "" == GradesTail;
    assert Params("") == [];
    WhereIffFilters(GradesBase, fs, GradesTail);
  }

  /** The classes query for `yearId` and `gradeId`: the k-th pushed
      condition names `$k`, so the placeholders are exactly the positions of
      the parameters, and `WHERE` appears exactly when some filter is
      present. */
  lemma ClassesQueryMeaning(yearId: Option<string>, gradeId: Option<string>)
    ensures var fs := ClassFilters(yearId, gradeId);
      var q := ClassesBase + Where(fs);
      && Params(q) == Ordinals(|Values(fs)|)
      && (Contains(q, "WHERE") <==> |Values(fs)| > 0)
  {
    var fs := ClassFilters(yearId, gradeId);
    ClassFiltersWellFormed(yearId, gradeId);
    TextPlain('$');
    TextPlain('W');
    WhereScans(fs);
    ParamsOfPlain(ClassesBase, Where(fs));
    assert Where(fs) + "" == Where(fs);
    assert Params("") == [];
    WhereIffFilters(ClassesBase, fs, "");
    assert ClassesBase + Where(fs) + "" == ClassesBase + Where(fs);
  }

  /** The year condition the grades handler writes out by hand is the one the
      filter builder would produce. */
  lemma YearWhere(v: string)
    ensures Where([Filter(YearColumn, v)]) == " WHERE SCHOOL_YEAR.id = $1"
  {
    assert Conditions([Filter(YearColumn, v)]) == [Condition(YearColumn, 1)];
    assert Decimal(1) == "1";
  }

  /** `GET /api/grades`: the statement and the parameters it is sent with. */
  method GradesQuery(yearId: Option<string>) returns (query: string, queryParams: seq<string>)
    ensures queryParams == Values(GradeFilters(yearId))
    ensures query == GradesBase + Where(GradeFilters(yearId)) + GradesTail
    ensures |queryParams| <= 1 && (|queryParams| == 1 <==> Truthy(yearId))
    ensures Params(query) == Ordinals(|queryParams|)
    ensures Contains(query, "WHERE") <==> Truthy(yearId)
    ensures EndsWith(query, GradesTail)
  {
    query := GradesBase;
    queryParams := [];
    if Truthy(yearId) {
      query := query + " WHERE SCHOOL_YEAR.id = $1";
      queryParams := queryParams + [yearId.value];
      YearWhere(yearId.value);
    }
    query := query + GradesTail;
    GradesQueryMeaning(yearId);
  }

  /** `GET /api/classes`: the statement and the parameters it is sent with.
      Each push keeps one condition per parameter, the last naming the
      parameter just pushed. */
  method ClassesQuery(yearId: Option<string>, gradeId: Option<string>)
    returns (query: string, queryParams: seq<string>)
    ensures queryParams == Values(ClassFilters(yearId, gradeId))
    ensures query == ClassesBase + Where(ClassFilters(yearId, gradeId))
    ensures Params(query) == Ordinals(|queryParams|)
    ensures Contains(query, "WHERE") <==> |queryParams| > 0
  {
    query := ClassesBase;
    queryParams := [];
    var conditions: seq<string> := [];
    ghost var fs: seq<Filter> := [];

    if Truthy(yearId) {
      queryParams := queryParams + [yearId.value];
      conditions := conditions + [Condition(YearColumn, |queryParams|)];
      fs := fs + [Filter(YearColumn, yearId.value)];
    }
    assert conditions == Conditions(fs) && queryParams == Values(fs);
    if Truthy(gradeId) {
      queryParams := queryParams + [gradeId.value];
      conditions := conditions + [Condition(GradeColumn, |queryParams|)];
      fs := fs + [Filter(GradeColumn, gradeId.value)];
    }
    assert conditions == Conditions(fs) && queryParams == Values(fs);

    if |conditions| > 0 {
      query := query + " WHERE " + Join(conditions, " AND ");
      Regroup(ClassesBase, " WHERE ", Join(conditions, " AND "));
    }
    assert fs == ClassFilters(yearId, gradeId);
    ClassesQueryMeaning(yearId, gradeId);
  }
}
