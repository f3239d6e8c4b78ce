/** src/TagSqlBuilder.ts: lowering a filter to the HAVING condition of a
    fixed SELECT over the user data, and rendering the statement as text.

    `Lower` says what the recursive `sqlFilterConditions`/`parseMetaTag`
    compute from a sort state: the condition (or the message of the first
    failed id lookup) and the sort state left behind. The class
    `TagSqlBuilder` is the source's object, whose `currentParse` fields are
    the sort state. */
module TagSql {
  import opened Wrappers
  import opened Filters
  import opened Tries
  import opened TagIdCaches

  datatype Config = Config(userdataTableName: string, userdataTableIdColumn: string,
                           userdataTableColumns: seq<string>)

  /** `'INNER' | 'LEFT' | 'RIGHT'`. */
  datatype JoinKind = Inner | LeftOuter | RightOuter

  datatype Join = Join(join: JoinKind, table: string, on: string)

  /** `'timestamp' | 'random'` and `'asc' | 'desc'`. */
  datatype SortBy = Timestamp | Random
  datatype SortDirection = Asc | Desc

  datatype SelectStatement = SelectStatement(
    select: string, from: string, joins: seq<Join>, groupBy: string, having: string,
    sortBy: SortBy, sortDirection: SortDirection)

  /** The `currentParse` record. */
  datatype SortState = SortState(sortBy: SortBy, sortDirection: SortDirection)

  /** What `setupParse` (and the constructor) set. */
  const InitialSort := SortState(Timestamp, Asc)

  const SortKey := "sort"
  const AlwaysTrue := "1=1"

  function JoinKindText(k: JoinKind): string {
    match k
    case Inner => "INNER"
    case LeftOuter => "LEFT"
    case RightOuter => "RIGHT"
  }

  function SortByText(s: SortBy): string {
    if s == Timestamp then "timestamp" else "random"
  }

  function SortDirectionText(d: SortDirection): string {
    if d == Asc then "asc" else "desc"
  }

  /** `Array.prototype.join(sep)`. */
  function JoinWith(parts: seq<string>, sep: string): string
    decreases |parts|
  {
    if parts == [] then ""
    else if |parts| == 1 then parts[0]
    else parts[0] + sep + JoinWith(parts[1..], sep)
  }

  /** `join.join + " JOIN " + join.table + " ON " + join.on`. */
  function JoinClause(j: Join): string {
    JoinKindText(j.join) + " JOIN " + j.table + " ON " + j.on
  }

  function JoinClauses(joins: seq<Join>): seq<string> {
    seq(|joins|, i requires 0 <= i < |joins| => JoinClause(joins[i]))
  }

  /** `SELECT <select> FROM <from>`. */
  function QueryClause(select: string, from: string): string {
    "SELECT " + select + " FROM " + from
  }

  /** `ORDER BY <column> <direction>`. */
  function OrderByText(sortBy: SortBy, sortDirection: SortDirection): string {
    "ORDER BY " + SortByText(sortBy) + " " + SortDirectionText(sortDirection)
  }

  /** `buildQueryFromSelectStatement`: the five clauses separated by single
      spaces. */
  function BuildQuery(stmt: SelectStatement): string {
    var query := QueryClause(stmt.select, stmt.from);
    var joinClauses := JoinWith(JoinClauses(stmt.joins), " ");
    var groupByClause := "GROUP BY " + stmt.groupBy;
    var havingClause := "HAVING " + stmt.having;
    var orderByClause := OrderByText(stmt.sortBy, stmt.sortDirection);
    query + " " + joinClauses + " " + groupByClause + " " + havingClause + " " + orderByClause
  }

  /** The condition a resolved tag id lowers to. */
  function TagCondition(id: string): string {
    "SUM(CASE WHEN ut.tag_id = '" + id + "' THEN 1 ELSE 0 END) > 0"
  }

  /** The `switch` of `parseMetaTag` on the value of a `sort` meta tag. */
  function ApplySortDirective(s: SortState, value: string): (r: SortState)
    ensures value != "random" && value != "oldest" && value != "newest" ==> r == s
    ensures value != "oldest" && value != "newest" ==> r.sortDirection == s.sortDirection
  {
    if value == "random" then s.(sortBy := Random)
    else if value == "oldest" then SortState(Timestamp, Asc)
    else if value == "newest" then SortState(Timestamp, Desc)
    else s
  }

  /** A lowered filter: the condition or the lookup error, and the sort
      state after the traversal (up to the failure, if any). */
  datatype Lowered = Lowered(condition: Result<string, string>, sort: SortState)

  /** The condition of a leaf that is looked up in the cache. */
  function LeafCondition(t: Node, tag: Filter): Result<string, string>
    requires tag.IsLeafTag()
  {
    match ResolveTagId(t, tag)
    case Success(id) => Success(TagCondition(id))
    case Failure(e) => Failure(e)
  }

  /** Both operands of `OrTag`/`AndTag` around the connective `op`, the left
      one first; a failure of the left one stops the traversal. */
  function LowerPair(l: Filter, r: Filter, op: string, t: Node, s: SortState): (lowered: Lowered)
    ensures lowered.condition.Failure? ==> exists k :: lowered.condition.error == NotFoundMessage(k)
    ensures Directives(l) == [] && Directives(r) == [] ==> lowered.sort == s
    decreases Size(l) + Size(r) + 1, 0
  {
    var left := Lower(l, t, s);
    if left.condition.Failure? then left
    else
      var right := Lower(r, t, left.sort);
      if right.condition.Failure? then right
      else Lowered(Success("(" + left.condition.value + op + right.condition.value + ")"), right.sort)
  }

  /** `sqlFilterConditions` with `parseMetaTag`, from sort state `s`. */
  function Lower(f: Filter, t: Node, s: SortState): (lowered: Lowered)
    ensures lowered.condition.Failure? ==> exists k :: lowered.condition.error == NotFoundMessage(k)
    ensures Directives(f) == [] ==> lowered.sort == s
    decreases Size(f), 1
  {
    match f
    case Tag(_) => Lowered(LeafCondition(t, f), s)
    case MetaTag(k, v) =>
      if k == SortKey then Lowered(Success(AlwaysTrue), ApplySortDirective(s, v))
      else Lowered(LeafCondition(t, f), s)
    case TrueTag => Lowered(Success(AlwaysTrue), s)
    case OrTag(l, r) => LowerPair(l, r, " OR ", t, s)
    case AndTag(l, r) => LowerPair(l, r, " AND ", t, s)
    case NotTag(i) =>
      var inner := Lower(i, t, s);
      if inner.condition.Failure? then inner
      else Lowered(Success("NOT (" + inner.condition.value + ")"), inner.sort)
  }

  /** The fixed skeleton of `buildTagFilterQuery` around a condition. */
  function Statement(config: Config, having: string, sort: SortState): SelectStatement {
    SelectStatement(
      JoinWith(seq(|config.userdataTableColumns|,
                   i requires 0 <= i < |config.userdataTableColumns| => "u." + config.userdataTableColumns[i]), ", "),
      config.userdataTableName + " u",
      [Join(Inner, "userdata_tags ut", "u." + config.userdataTableIdColumn + " = ut.userdata_id")],
      "u." + config.userdataTableIdColumn,
      having,
      sort.sortBy,
      sort.sortDirection)
  }

  /** `buildTagFilterQuery(filter)`: the sort state is reset first, so the
      result depends on the configuration, the cache and the filter only. */
  function BuildTagFilter(config: Config, t: Node, f: Filter): (r: Result<SelectStatement, string>)
    ensures r.Failure? ==> exists k :: r.error == NotFoundMessage(k)
    ensures r.Success? && Directives(f) == [] ==> r.value.sortBy == Timestamp && r.value.sortDirection == Asc
  {
    var lowered := Lower(f, t, InitialSort);
    match lowered.condition
    case Success(having) => Success(Statement(config, having, lowered.sort))
    case Failure(e) => Failure(e)
  }

  // ----- reference definitions ------------------------------------------------

  /** The leaves that are looked up in the cache, left to right: tags, and
      meta tags whose key is not `sort`. */
  function Lookups(f: Filter): (ls: seq<Filter>)
    ensures forall i :: 0 <= i < |ls| ==> ls[i].IsLeafTag()
  {
    match f
    case Tag(_) => [f]
    case MetaTag(k, _) => if k == SortKey then [] else [f]
    case TrueTag => []
    case OrTag(l, r) => Lookups(l) + Lookups(r)
    case AndTag(l, r) => Lookups(l) + Lookups(r)
    case NotTag(i) => Lookups(i)
  }

  /** The message for the first of `tags` that the cache does not hold. */
  function FirstMiss(t: Node, tags: seq<Filter>): Option<string>
    requires forall i :: 0 <= i < |tags| ==> tags[i].IsLeafTag()
    decreases |tags|
  {
    if tags == [] then None
    else if ResolveTagId(t, tags[0]).Failure? then Some(ResolveTagId(t, tags[0]).error)
    else FirstMiss(t, tags[1..])
  }

  /** The values of the `sort` meta tags, left to right. */
  function Directives(f: Filter): seq<string> {
    match f
    case Tag(_) => []
    case MetaTag(k, v) => if k == SortKey then [v] else []
    case TrueTag => []
    case OrTag(l, r) => Directives(l) + Directives(r)
    case AndTag(l, r) => Directives(l) + Directives(r)
    case NotTag(i) => Directives(i)
  }

  /** The directives applied in order, as the traversal does. */
  function ApplyAll(s: SortState, ds: seq<string>): SortState
    decreases |ds|
  {
    if ds == [] then s else ApplyAll(ApplySortDirective(s, ds[0]), ds[1..])
  }

  /** Reference for the column: the LAST `random`, `oldest` or `newest`
      decides it; with none, it stays as it was. */
  function SortByAfter(s: SortState, ds: seq<string>): SortBy
    decreases |ds|
  {
    if ds == [] then s.sortBy
    else
      var d := ds[|ds| - 1];
      if d == "random" then Random
      else if d == "oldest" || d == "newest" then Timestamp
      else SortByAfter(s, ds[..|ds| - 1])
  }

  /** Reference for the direction: the LAST `oldest` or `newest` decides it;
      `random` leaves it alone. */
  function DirectionAfter(s: SortState, ds: seq<string>): SortDirection
    decreases |ds|
  {
    if ds == [] then s.sortDirection
    else
      var d := ds[|ds| - 1];
      if d == "oldest" then Asc
      else if d == "newest" then Desc
      else DirectionAfter(s, ds[..|ds| - 1])
  }

  // ----- lemmas -------------------------------------------------------------

  lemma {:induction false} FirstMissAppend(t: Node, a: seq<Filter>, b: seq<Filter>)
    requires forall i :: 0 <= i < |a| ==> a[i].IsLeafTag()
    requires forall i :: 0 <= i < |b| ==> b[i].IsLeafTag()
    ensures forall i :: 0 <= i < |a + b| ==> (a + b)[i].IsLeafTag()
    ensures FirstMiss(t, a + b) == if FirstMiss(t, a).Some? then FirstMiss(t, a) else FirstMiss(t, b)
    decreases |a|
  {
    if a != [] {
      assert (a + b)[0] == a[0];
      assert (a + b)[1..] == a[1..] + b;
      FirstMissAppend(t, a[1..], b);
    } else {
      assert a + b == b;
    }
  }

  /** Lowering fails exactly when some looked-up leaf is missing from the
      cache, with the message of the FIRST such leaf, whatever the sort
      state. */
  lemma {:induction false} LowerFailsOnFirstMiss(f: Filter, t: Node, s: SortState)
    ensures Lower(f, t, s).condition.Failure? <==> FirstMiss(t, Lookups(f)).Some?
    ensures Lower(f, t, s).condition.Failure? ==>
              Lower(f, t, s).condition.error == FirstMiss(t, Lookups(f)).value
    decreases f
  {
    match f
    case Tag(_) =>
      assert Lookups(f)[1..] == [];
    case MetaTag(k, _) =>
      if k != SortKey {
        assert Lookups(f)[1..] == [];
      }
    case TrueTag =>
    case NotTag(i) =>
      LowerFailsOnFirstMiss(i, t, s);
    case OrTag(l, r) =>
      LowerFailsOnFirstMiss(l, t, s);
      LowerFailsOnFirstMiss(r, t, Lower(l, t, s).sort);
      FirstMissAppend(t, Lookups(l), Lookups(r));
    case AndTag(l, r) =>
      LowerFailsOnFirstMiss(l, t, s);
      LowerFailsOnFirstMiss(r, t, Lower(l, t, s).sort);
      FirstMissAppend(t, Lookups(l), Lookups(r));
  }

  lemma {:induction false} ApplyAllAppend(s: SortState, ds: seq<string>, es: seq<string>)
    ensures ApplyAll(s, ds + es) == ApplyAll(ApplyAll(s, ds), es)
    decreases |ds|
  {
    if ds == [] {
      assert ds + es == es;
    } else {
      assert (ds + es)[0] == ds[0];
      assert (ds + es)[1..] == ds[1..] + es;
      ApplyAllAppend(ApplySortDirective(s, ds[0]), ds[1..], es);
    }
  }

  /** A successful lowering leaves the sort state that the `sort`
      directives, applied in traversal order, produce. */
  lemma {:induction false} LowerAppliesDirectives(f: Filter, t: Node, s: SortState)
    requires Lower(f, t, s).condition.Success?
    ensures Lower(f, t, s).sort == ApplyAll(s, Directives(f))
    decreases f
  {
    match f
    case Tag(_) =>
    case MetaTag(k, v) =>
      if k == SortKey {
        assert ApplyAll(ApplySortDirective(s, v), []) == ApplySortDirective(s, v);
      }
    case TrueTag =>
    case NotTag(i) =>
      LowerAppliesDirectives(i, t, s);
    case OrTag(l, r) =>
      LowerAppliesDirectives(l, t, s);
      LowerAppliesDirectives(r, t, Lower(l, t, s).sort);
      ApplyAllAppend(s, Directives(l), Directives(r));
    case AndTag(l, r) =>
      LowerAppliesDirectives(l, t, s);
      LowerAppliesDirectives(r, t, Lower(l, t, s).sort);
      ApplyAllAppend(s, Directives(l), Directives(r));
  }

  /** The last directive wins: applying the directives one by one gives the
      column of the last `random`/`oldest`/`newest` and the direction of the
      last `oldest`/`newest`. */
  lemma {:induction false} LastDirectiveWins(s: SortState, ds: seq<string>)
    ensures ApplyAll(s, ds) == SortState(SortByAfter(s, ds), DirectionAfter(s, ds))
    decreases |ds|
  {
    if ds != [] {
      var init, d := ds[..|ds| - 1], ds[|ds| - 1];
      assert ds == init + [d];
      ApplyAllAppend(s, init, [d]);
      LastDirectiveWins(s, init);
      assert ApplyAll(ApplyAll(s, init), [d]) == ApplySortDirective(ApplyAll(s, init), d);
    }
  }

  /** The statement `buildTagFilterQuery` returns, in terms of the reference
      definitions: the first missing tag's message, or the fixed skeleton with
      the sort state the last directives chose. */
  lemma BuildTagFilterOutcome(config: Config, t: Node, f: Filter)
    ensures BuildTagFilter(config, t, f).Failure? <==> FirstMiss(t, Lookups(f)).Some?
    ensures BuildTagFilter(config, t, f).Failure? ==>
              BuildTagFilter(config, t, f).error == FirstMiss(t, Lookups(f)).value
    ensures BuildTagFilter(config, t, f).Success? ==>
              var stmt := BuildTagFilter(config, t, f).value;
              && stmt.sortBy == SortByAfter(InitialSort, Directives(f))
              && stmt.sortDirection == DirectionAfter(InitialSort, Directives(f))
              && stmt.having == Lower(f, t, InitialSort).condition.value
  {
    LowerFailsOnFirstMiss(f, t, InitialSort);
    if Lower(f, t, InitialSort).condition.Success? {
      LowerAppliesDirectives(f, t, InitialSort);
      LastDirectiveWins(InitialSort, Directives(f));
    }
  }

  /** Appending keeps a prefix. */
  lemma PrefixKept(x: string, z: string, n: nat)
    requires n <= |x|
    ensures (x + z)[..n] == x[..n]
  {
  }

  /** The text starts with `SELECT <select> FROM <from>` and ends with the
      ORDER BY clause. */
  lemma QueryStartsAndEnds(stmt: SelectStatement)
    ensures var q, head, order := BuildQuery(stmt), QueryClause(stmt.select, stmt.from),
                                  OrderByText(stmt.sortBy, stmt.sortDirection);
            && |head| + |order| <= |q|
            && q[..|head|] == head
            && q[|q| - |order|..] == order
  {
    var head := QueryClause(stmt.select, stmt.from);
    var n := |head|;
    var x1 := head + " ";
    var x2 := x1 + JoinWith(JoinClauses(stmt.joins), " ");
    var x3 := x2 + " ";
    var x4 := x3 + ("GROUP BY " + stmt.groupBy);
    var x5 := x4 + " ";
    var x6 := x5 + ("HAVING " + stmt.having);
    var x7 := x6 + " ";
    PrefixKept(head, " ", n);
    PrefixKept(x1, JoinWith(JoinClauses(stmt.joins), " "), n);
    PrefixKept(x2, " ", n);
    PrefixKept(x3, "GROUP BY " + stmt.groupBy, n);
    PrefixKept(x4, " ", n);
    PrefixKept(x5, "HAVING " + stmt.having, n);
    PrefixKept(x6, " ", n);
    PrefixKept(x7, OrderByText(stmt.sortBy, stmt.sortDirection), n);
    assert head[..n] == head;
  }

  /** Reads the sort state back from the end of a query text: the fourth
      character from the end is the blank before `asc` or the `d` of
      `desc`, and the character before the direction's blank ends the
      column name (`timestamp` or `random`). */
  function ReadSortState(q: string): Option<SortState> {
    if |q| < 4 then None
    else
      var dir := if q[|q| - 4] == ' ' then Asc else Desc;
      var k := |q| - |SortDirectionText(dir)| - 2;
      if k < 0 then None
      else Some(SortState(if q[k] == 'p' then Timestamp else Random, dir))
  }

  lemma ReadOrderByText(sortBy: SortBy, sortDirection: SortDirection, q: string)
    requires var o := OrderByText(sortBy, sortDirection); |o| <= |q| && q[|q| - |o|..] == o
    ensures ReadSortState(q) == Some(SortState(sortBy, sortDirection))
  {
    var o := OrderByText(sortBy, sortDirection);
    var d := |q| - |o|;
    var k := |o| - |SortDirectionText(sortDirection)| - 2;
    assert q[d + |o| - 4] == o[|o| - 4];
    assert q[d + k] == o[k];
  }

  /** The serializer keeps the sort state: it can be read back from the
      text alone, so two statements with different sort states never render
      to the same query. */
  lemma BuildQueryKeepsSortState(stmt: SelectStatement)
    ensures ReadSortState(BuildQuery(stmt)) == Some(SortState(stmt.sortBy, stmt.sortDirection))
  {
    QueryStartsAndEnds(stmt);
    ReadOrderByText(stmt.sortBy, stmt.sortDirection, BuildQuery(stmt));
  }

  /** Everything of the text up to the HAVING condition. */
  function HavingPrefix(stmt: SelectStatement): string {
    QueryClause(stmt.select, stmt.from) + " " + JoinWith(JoinClauses(stmt.joins), " ") + " "
      + ("GROUP BY " + stmt.groupBy) + " " + "HAVING "
  }

  lemma BuildQueryAroundHaving(stmt: SelectStatement)
    ensures BuildQuery(stmt)
            == HavingPrefix(stmt) + stmt.having + (" " + OrderByText(stmt.sortBy, stmt.sortDirection))
  {
  }

  lemma SliceOfMiddle(x: string, y: string, z: string)
    ensures (x + y + z)[|x|..|x| + |y|] == y
  {
  }

  /** The serializer keeps the HAVING condition: statements that differ only
      in their condition render to different texts. */
  lemma BuildQueryKeepsHaving(s1: SelectStatement, s2: SelectStatement)
    requires s2 == s1.(having := s2.having)
    requires BuildQuery(s1) == BuildQuery(s2)
    ensures s1 == s2
  {
    var h, o := HavingPrefix(s1), " " + OrderByText(s1.sortBy, s1.sortDirection);
    BuildQueryAroundHaving(s1);
    BuildQueryAroundHaving(s2);
    SliceOfMiddle(h, s1.having, o);
    SliceOfMiddle(h, s2.having, o);
  }

  /** `tag1 & sort:newest` against a cache holding tag1 as "1": the sort
      directive contributes `1=1` and turns the order to newest first. */
  lemma NewestFirstExample(config: Config, t: Node)
    requires ResolveTagId(t, Tag("tag1")) == Success("1")
    ensures BuildTagFilter(config, t, AndTag(Tag("tag1"), MetaTag("sort", "newest")))
            == Success(Statement(config, "(" + TagCondition("1") + " AND " + AlwaysTrue + ")",
                                 SortState(Timestamp, Desc)))
  {
    assert Lower(Tag("tag1"), t, InitialSort) == Lowered(Success(TagCondition("1")), InitialSort);
  }

  /** `sort:newest & sort:random`: `random` changes the column and keeps the
      direction the earlier directive chose. */
  lemma RandomKeepsDirectionExample(config: Config, t: Node)
    ensures BuildTagFilter(config, t, AndTag(MetaTag("sort", "newest"), MetaTag("sort", "random")))
            == Success(Statement(config, "(" + AlwaysTrue + " AND " + AlwaysTrue + ")",
                                 SortState(Random, Desc)))
  {
  }

  /** With an empty cache, `!tag9 | sort:oldest` fails with the message of
      the lookup of tag9. */
  lemma MissingTagExample(config: Config)
    ensures BuildTagFilter(config, Leaf(""), OrTag(NotTag(Tag("tag9")), MetaTag("sort", "oldest")))
            == Failure(NotFoundMessage("tag9"))
  {
    EmptyCacheMisses(Tag("tag9"));
  }

  // ----- the builder object ---------------------------------------------------

  /** The `TagSqlBuilder` object; `sortBy` and `sortDirection` are the fields
      of its `currentParse` record. */
  class TagSqlBuilder {
    const builderConfig: Config
    const tagIdCache: TagIdCache
    var sortBy: SortBy
    var sortDirection: SortDirection

    ghost predicate Valid()
      reads this, tagIdCache.tagTrie, tagIdCache.tagTrie.Repr
    {
      tagIdCache.Valid() && this !in tagIdCache.tagTrie.Repr
    }

    ghost function Sort(): SortState
      reads this
    {
      SortState(sortBy, sortDirection)
    }

    constructor (builderConfig: Config, tagIdCache: TagIdCache)
      requires tagIdCache.Valid()
      ensures Valid() && Sort() == InitialSort
      ensures this.builderConfig == builderConfig && this.tagIdCache == tagIdCache
    {
      this.builderConfig := builderConfig;
      this.tagIdCache := tagIdCache;
      sortBy := Timestamp;
      sortDirection := Asc;
    }

    /** `parseMetaTag`. */
    method ParseMetaTag(tag: Filter) returns (r: Result<string, string>)
      requires Valid() && tag.MetaTag?
      modifies this`sortBy, this`sortDirection
      ensures Lowered(r, Sort()) == Lower(tag, tagIdCache.Model(), old(Sort()))
    {
      if tag.key == SortKey {
        if tag.value == "random" {
          sortBy := Random;
        } else if tag.value == "oldest" {
          sortBy := Timestamp;
          sortDirection := Asc;
        } else if tag.value == "newest" {
          sortBy := Timestamp;
          sortDirection := Desc;
        }
        return Success(AlwaysTrue);
      }
      var id := tagIdCache.TagToTagId(tag);
      if id.Failure? {
        return Failure(id.error);
      }
      return Success(TagCondition(id.value));
    }

    /** `sqlFilterConditions`: a failed lookup ends the traversal. */
    method SqlFilterConditions(filter: Filter) returns (r: Result<string, string>)
      requires Valid()
      modifies this`sortBy, this`sortDirection
      ensures Lowered(r, Sort()) == Lower(filter, tagIdCache.Model(), old(Sort()))
      decreases filter
    {
      match filter
      case Tag(_) =>
        var id := tagIdCache.TagToTagId(filter);
        if id.Failure? {
          return Failure(id.error);
        }
        return Success(TagCondition(id.value));
      case MetaTag(_, _) =>
        r := ParseMetaTag(filter);
      case TrueTag =>
        return Success(AlwaysTrue);
      case OrTag(left, right) =>
        var l := SqlFilterConditions(left);
        if l.Failure? {
          return l;
        }
        var rr := SqlFilterConditions(right);
        if rr.Failure? {
          return rr;
        }
        return Success("(" + l.value + " OR " + rr.value + ")");
      case AndTag(left, right) =>
        var l := SqlFilterConditions(left);
        if l.Failure? {
          return l;
        }
        var rr := SqlFilterConditions(right);
        if rr.Failure? {
          return rr;
        }
        return Success("(" + l.value + " AND " + rr.value + ")");
      case NotTag(inner) =>
        var i := SqlFilterConditions(inner);
        if i.Failure? {
          return i;
        }
        return Success("NOT (" + i.value + ")");
    }

    /** `setupParse`. */
    method SetupParse()
      modifies this`sortBy, this`sortDirection
      ensures Sort() == InitialSort
    {
      sortBy := Timestamp;
      sortDirection := Asc;
    }

    /** `buildTagFilterQuery`: whatever earlier calls left in the sort state,
        the answer is `BuildTagFilter` of the configuration, the cache and the
        filter. */
    method BuildTagFilterQuery(filter: Filter) returns (r: Result<SelectStatement, string>)
      requires Valid()
      modifies this`sortBy, this`sortDirection
      ensures r == BuildTagFilter(builderConfig, tagIdCache.Model(), filter)
      ensures Sort() == Lower(filter, tagIdCache.Model(), InitialSort).sort
    {
      SetupParse();
      var having := SqlFilterConditions(filter);
      if having.Failure? {
        return Failure(having.error);
      }
      return Success(Statement(builderConfig, having.value, SortState(sortBy, sortDirection)));
    }
  }
}
