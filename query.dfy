/**
 * The listing query of `GET /messages`: optional status and phone filters
 * plus a page window, turned into an SQL string with `%s` placeholders and
 * the parameter list that fills them. Only the string and the list are
 * modelled; executing them is the database's business.
 */
module MessageQuery {
  import opened Wrappers
  import opened JsonValues

  /** The request arguments after `int(...)` has parsed `limit` and `offset`. */
  datatype QueryArgs = QueryArgs(status: Option<string>, phone: Option<string>,
                                 limit: Option<int>, offset: Option<int>)

  /** A value bound to one placeholder. */
  datatype Param = Text(s: string) | Number(n: int)

  /** One `AND <column> =%s` filter with the value it compares against. */
  datatype Condition = Condition(column: string, value: string)

  const DefaultLimit: int := 100
  const DefaultOffset: int := 0
  const Base: string := "SELECT * FROM sms_messages WHERE 1=1"
  const Suffix: string := " ORDER BY created_at DESC LIMIT %s OFFSET %s"

  /** The number of `%s` placeholders, read left to right. */
  function Placeholders(s: string): nat {
    if |s| < 2 then 0
    else if s[0] == '%' && s[1] == 's' then 1 + Placeholders(s[2..])
    else Placeholders(s[1..])
  }

  /** The filters the handler adds, in the order it adds them: status first, then phone. */
  function Conditions(args: QueryArgs): (cs: seq<Condition>)
    ensures |cs| == (if Truthy(args.status) then 1 else 0) + (if Truthy(args.phone) then 1 else 0)
    ensures Truthy(args.status) ==> cs[0] == Condition("status", args.status.value)
    ensures Truthy(args.phone) ==> cs[|cs| - 1] == Condition("phone", args.phone.value)
  {
    (if Truthy(args.status) then [Condition("status", args.status.value)] else [])
    + (if Truthy(args.phone) then [Condition("phone", args.phone.value)] else [])
  }

  function ClauseText(c: Condition): string {
    " AND " + c.column + " =%s"
  }

  /** The text appended to the query for a list of filters. */
  function WhereText(cs: seq<Condition>): string {
    if cs == [] then "" else ClauseText(cs[0]) + WhereText(cs[1..])
  }

  /** The values bound to the filters' placeholders, in the same order. */
  function FilterParams(cs: seq<Condition>): (ps: seq<Param>)
    ensures |ps| == |cs|
    ensures forall k :: 0 <= k < |cs| ==> ps[k] == Text(cs[k].value)
  {
    if cs == [] then [] else [Text(cs[0].value)] + FilterParams(cs[1..])
  }

  /** The page window with its defaults: limit 100, offset 0. */
  function Window(args: QueryArgs): (ps: seq<Param>)
    ensures |ps| == 2
  {
    [Number(args.limit.GetOr(DefaultLimit)), Number(args.offset.GetOr(DefaultOffset))]
  }

  /**
   * The query builder of `get_messages`: starts from the base query and an
   * empty list and appends one clause and one value per present filter,
   * then the ordering and window.
   */
  method BuildQuery(args: QueryArgs) returns (query: string, params: seq<Param>)
    ensures query == Base + WhereText(Conditions(args)) + Suffix
    ensures params == FilterParams(Conditions(args)) + Window(args)
    ensures Placeholders(query) == |params|
  {
    var limit := if args.limit.Some? then args.limit.value else DefaultLimit;
    var offset := if args.offset.Some? then args.offset.value else DefaultOffset;
    ghost var cs: seq<Condition> := [];
    query := Base;
    params := [];
    if Truthy(args.status) {
      ghost var c := Condition("status", args.status.value);
      NamedClause(c);
      AppendFilter(query, params, cs, c, " AND status =%s");
      query := query + " AND status =%s";
      params := params + [Text(args.status.value)];
      cs := cs + [c];
    }
    if Truthy(args.phone) {
      ghost var c := Condition("phone", args.phone.value);
      NamedClause(c);
      AppendFilter(query, params, cs, c, " AND phone =%s");
      query := query + " AND phone =%s";
      params := params + [Text(args.phone.value)];
      cs := cs + [c];
    }
    assert cs == Conditions(args);
    query := query + Suffix;
    params := params + [Number(limit), Number(offset)];
    QueryPlaceholdersMatchParams(args);
  }

  /** The clause text for the two columns the handler filters on. */
  lemma NamedClause(c: Condition)
    ensures c.column == "status" ==> ClauseText(c) == " AND status =%s"
    ensures c.column == "phone" ==> ClauseText(c) == " AND phone =%s"
  {
  }

  /** Appending a filter appends its clause to the filter text. */
  lemma {:induction false} WhereTextAppend(cs: seq<Condition>, c: Condition)
    ensures WhereText(cs + [c]) == WhereText(cs) + ClauseText(c)
  {
    if cs == [] {
      assert cs + [c] == [c];
      assert WhereText([c][1..]) == [];
    } else {
      assert (cs + [c])[1..] == cs[1..] + [c];
      WhereTextAppend(cs[1..], c);
    }
  }

  /** One step of the builder: the query and the parameters grow by one filter. */
  lemma AppendFilter(query: string, params: seq<Param>, cs: seq<Condition>, c: Condition, clause: string)
    requires query == Base + WhereText(cs) && params == FilterParams(cs) && clause == ClauseText(c)
    ensures query + clause == Base + WhereText(cs + [c])
    ensures params + [Text(c.value)] == FilterParams(cs + [c])
  {
    WhereTextAppend(cs, c);
    FilterParamsAppend(cs, c);
  }

  /** Appending a filter appends its value to the parameters. */
  lemma FilterParamsAppend(cs: seq<Condition>, c: Condition)
    ensures FilterParams(cs + [c]) == FilterParams(cs) + [Text(c.value)]
  {
  }

  /** Counting placeholders splits at a boundary that does not follow a '%'. */
  lemma {:induction false} PlaceholdersConcat(a: string, b: string)
    requires a == [] || a[|a| - 1] != '%'
    ensures Placeholders(a + b) == Placeholders(a) + Placeholders(b)
  {
    if a == [] {
      assert a + b == b;
    } else if |a| == 1 {
      if b != [] {
        assert (a + b)[1..] == b;
      }
    } else if a[0] == '%' && a[1] == 's' {
      assert (a + b)[2..] == a[2..] + b;
      PlaceholdersConcat(a[2..], b);
    } else {
      assert (a + b)[1..] == a[1..] + b;
      PlaceholdersConcat(a[1..], b);
    }
  }

  /** A string without '%' has no placeholder. */
  lemma {:induction false} NoPercentNoPlaceholders(s: string)
    requires '%' !in s
    ensures Placeholders(s) == 0
  {
    if |s| >= 2 {
      assert s[0] != '%';
      assert '%' !in s[1..] by {
        forall k | 0 <= k < |s[1..]| ensures s[1..][k] != '%' {
          assert s[1..][k] == s[k + 1];
        }
      }
      NoPercentNoPlaceholders(s[1..]);
    }
  }

  /** The literal tail " =%s" holds one placeholder. */
  lemma OnePlaceholderTail()
    ensures Placeholders(" =%s") == 1
  {
    var t := " =%s";
    assert t[1..] == "=%s";
    assert t[1..][1..] == "%s";
    assert t[1..][1..][2..] == "";
  }

  /** Each filter clause holds exactly one placeholder. */
  lemma ClauseHasOnePlaceholder(c: Condition)
    requires '%' !in c.column
    ensures Placeholders(ClauseText(c)) == 1
    ensures ClauseText(c)[|ClauseText(c)| - 1] == 's'
  {
    NoPercentNoPlaceholders(" AND ");
    NoPercentNoPlaceholders(" AND " + c.column);
    PlaceholdersConcat(" AND " + c.column, " =%s");
    OnePlaceholderTail();
  }

  /** The filter text holds one placeholder per filter and never ends in '%'. */
  lemma {:induction false} WherePlaceholders(cs: seq<Condition>)
    requires forall k :: 0 <= k < |cs| ==> '%' !in cs[k].column
    ensures Placeholders(WhereText(cs)) == |cs|
    ensures WhereText(cs) == [] || WhereText(cs)[|WhereText(cs)| - 1] != '%'
  {
    if cs != [] {
      ClauseHasOnePlaceholder(cs[0]);
      WherePlaceholders(cs[1..]);
      PlaceholdersConcat(ClauseText(cs[0]), WhereText(cs[1..]));
    }
  }

  const OrderByLimit: string := " ORDER BY created_at DESC LIMIT "
  const OffsetWord: string := " OFFSET "

  /** The tail split around its two placeholders. */
  lemma SuffixPieces()
    ensures Suffix == OrderByLimit + ("%s" + (OffsetWord + "%s"))
  {
  }

  /** The fixed words of the query hold no '%'. */
  lemma FixedWordsHaveNoPercent()
    ensures '%' !in Base && '%' !in OrderByLimit && '%' !in OffsetWord
  {
  }

  /** A lone "%s" is one placeholder. */
  lemma PlaceholderAlone()
    ensures Placeholders("%s") == 1
  {
    assert "%s"[2..] == [];
  }

  /**
   * A tail of the shape `<head>%s<mid>%s`, with no '%' in the words, holds
   * exactly two placeholders: the ones limit and offset fill.
   */
  lemma TailPlaceholders(head: string, mid: string)
    requires '%' !in head && '%' !in mid
    ensures Placeholders(head + ("%s" + (mid + "%s"))) == 2
  {
    NoPercentNoPlaceholders(head);
    NoPercentNoPlaceholders(mid);
    PlaceholderAlone();
    var p := "%s";
    PlaceholdersConcat(mid, p);
    PlaceholdersConcat(p, mid + p);
    PlaceholdersConcat(head, p + (mid + p));
  }

  /**
   * A query made of a '%'-free base, the filter clauses and such a tail holds
   * one placeholder per filter plus two.
   */
  lemma QueryPlaceholders(base: string, cs: seq<Condition>, head: string, mid: string)
    requires '%' !in base && '%' !in head && '%' !in mid
    requires forall k :: 0 <= k < |cs| ==> '%' !in cs[k].column
    ensures Placeholders(base + WhereText(cs) + (head + ("%s" + (mid + "%s")))) == |cs| + 2
  {
    WherePlaceholders(cs);
    NoPercentNoPlaceholders(base);
    PlaceholdersConcat(base, WhereText(cs));
    var front := base + WhereText(cs);
    assert front == [] || front[|front| - 1] != '%' by {
      if WhereText(cs) == [] {
        assert front == base;
      } else {
        assert front[|front| - 1] == WhereText(cs)[|WhereText(cs)| - 1];
      }
    }
    TailPlaceholders(head, mid);
    PlaceholdersConcat(front, head + ("%s" + (mid + "%s")));
  }

  /** For every request, the built query has exactly one placeholder per parameter. */
  lemma QueryPlaceholdersMatchParams(args: QueryArgs)
    ensures Placeholders(Base + WhereText(Conditions(args)) + Suffix)
            == |FilterParams(Conditions(args)) + Window(args)|
  {
    var cs := Conditions(args);
    FixedWordsHaveNoPercent();
    SuffixPieces();
    QueryPlaceholders(Base, cs, OrderByLimit, OffsetWord);
  }

  /**
   * Parameters come in the handler's order: status (when present), phone
   * (when present), then limit and offset with their defaults.
   */
  lemma ParamOrder(args: QueryArgs)
    ensures var ps := FilterParams(Conditions(args)) + Window(args);
      && ps == (if Truthy(args.status) then [Text(args.status.value)] else [])
               + (if Truthy(args.phone) then [Text(args.phone.value)] else [])
               + [Number(args.limit.GetOr(100)), Number(args.offset.GetOr(0))]
  {
    var cs := Conditions(args);
    var ps := FilterParams(cs) + Window(args);
    var expected := (if Truthy(args.status) then [Text(args.status.value)] else [])
                    + (if Truthy(args.phone) then [Text(args.phone.value)] else [])
                    + [Number(args.limit.GetOr(100)), Number(args.offset.GetOr(0))];
    assert |ps| == |expected|;
    forall k | 0 <= k < |ps| ensures ps[k] == expected[k] {
      if k < |cs| {
        assert ps[k] == Text(cs[k].value);
      }
    }
  }

  /** The query always ends with the ordering (newest first) and the window. */
  lemma QueryEndsWithOrderAndWindow(args: QueryArgs)
    ensures var q := Base + WhereText(Conditions(args)) + Suffix;
      q[|q| - |Suffix|..] == " ORDER BY created_at DESC LIMIT %s OFFSET %s"
  {
  }
}
