/** sample/TagSqlBuilder.ts: the variant of the query builder whose statement
    fields after `from` are optional. Its lowering code is a copy of the one
    in src/TagSqlBuilder.ts; here the copy is proved to compute `TagSql.Lower`
    as well, so the two agree on every filter. Its serializer differs: it
    adds a WHERE slot and leaves out a clause whose field is missing or empty,
    keeping the spaces around it. */
module SampleTagSql {
  import opened Wrappers
  import opened Filters
  import opened Tries
  import opened TagIdCaches
  import opened TagSql

  datatype SampleStatement = SampleStatement(
    select: string, from: string, joins: Option<seq<Join>>, groupBy: Option<string>,
    having: Option<string>, sortBy: Option<SortBy>, where: Option<string>,
    sortDirection: Option<SortDirection>)

  /** A clause that appears only when its field is present and not the empty
      string (the truthiness test of the source). */
  function Clause(keyword: string, field: Option<string>): string {
    if field.Some? && field.value != "" then keyword + field.value else ""
  }

  /** `ORDER BY` only when `sortBy` is set; the direction defaults to desc. */
  function OrderByClause(sortBy: Option<SortBy>, sortDirection: Option<SortDirection>): string {
    if sortBy.Some? then OrderByText(sortBy.value, if sortDirection.Some? then sortDirection.value else Desc)
    else ""
  }

  /** `buildQueryFromSelectStatement` of the sample: six slots separated by
      single spaces; missing joins count as none. */
  function SampleBuildQuery(stmt: SampleStatement): string {
    var query := QueryClause(stmt.select, stmt.from);
    var joinClauses := JoinWith(JoinClauses(if stmt.joins.Some? then stmt.joins.value else []), " ");
    var whereClause := Clause("WHERE ", stmt.where);
    var groupByClause := Clause("GROUP BY ", stmt.groupBy);
    var havingClause := Clause("HAVING ", stmt.having);
    var orderByClause := OrderByClause(stmt.sortBy, stmt.sortDirection);
    query + " " + joinClauses + " " + whereClause + " " + groupByClause + " " + havingClause + " " + orderByClause
  }

  /** A statement of src/TagSqlBuilder.ts as the sample's type: every field
      set, no WHERE. */
  function Lift(stmt: SelectStatement): SampleStatement {
    SampleStatement(stmt.select, stmt.from, Some(stmt.joins), Some(stmt.groupBy), Some(stmt.having),
                    Some(stmt.sortBy), None, Some(stmt.sortDirection))
  }

  /** `buildListFilteredEntitiesQuery`: the statement of the src builder, in
      the sample's type. */
  function BuildListFilteredEntities(config: Config, t: Node, f: Filter): (r: Result<SampleStatement, string>)
    ensures r.Failure? ==> exists k :: r.error == NotFoundMessage(k)
    ensures r.Success? ==> r.value.where.None? && r.value.joins.Some? && r.value.having.Some?
  {
    match BuildTagFilter(config, t, f)
    case Success(stmt) => Success(Lift(stmt))
    case Failure(e) => Failure(e)
  }

  // ----- lemmas -------------------------------------------------------------

  /** The text of the src serializer after the join clauses `p`. */
  function AfterJoins(p: string, stmt: SelectStatement): string {
    p + " " + ("GROUP BY " + stmt.groupBy) + " " + ("HAVING " + stmt.having)
    + " " + OrderByText(stmt.sortBy, stmt.sortDirection)
  }

  /** On a statement of the src builder with a non-empty GROUP BY and HAVING,
      the sample's serializer writes the src text with one more space after
      the join clauses: the empty WHERE slot. */
  lemma SerializersDifferByWhereSlot(stmt: SelectStatement)
    requires stmt.groupBy != "" && stmt.having != ""
    ensures var head := QueryClause(stmt.select, stmt.from) + " " + JoinWith(JoinClauses(stmt.joins), " ");
            && BuildQuery(stmt) == AfterJoins(head, stmt)
            && SampleBuildQuery(Lift(stmt)) == AfterJoins(head + " ", stmt)
  {
    var head := QueryClause(stmt.select, stmt.from) + " " + JoinWith(JoinClauses(stmt.joins), " ");
    assert head + " " + "" == head + " ";
  }

  /** A missing or empty field leaves only the spaces around its slot: with
      nothing after `from`, the text ends in five spaces. */
  lemma EmptySlotsKeepTheirSpaces(select: string, from: string)
    ensures SampleBuildQuery(SampleStatement(select, from, None, None, None, None, None, None))
            == QueryClause(select, from) + "     "
    ensures SampleBuildQuery(SampleStatement(select, from, Some([]), Some(""), Some(""), None, Some(""), None))
            == QueryClause(select, from) + "     "
  {
    assert JoinClauses([]) == [];
    var q := QueryClause(select, from);
    assert q + " " + "" + " " + "" + " " + "" + " " + "" + " " + "" == q + "     ";
  }

  /** With `sortBy` set and no direction, the order is descending. */
  lemma OrderDefaultsToDescending(sortBy: SortBy)
    ensures OrderByClause(Some(sortBy), None) == OrderByText(sortBy, Desc)
  {
  }

  /** With `sortBy` set, the sort state can be read back from the end of
      the text, the direction defaulting to desc. */
  lemma SampleKeepsSortState(stmt: SampleStatement)
    requires stmt.sortBy.Some?
    ensures ReadSortState(SampleBuildQuery(stmt))
            == Some(SortState(stmt.sortBy.value, if stmt.sortDirection.Some? then stmt.sortDirection.value else Desc))
  {
    var dir := if stmt.sortDirection.Some? then stmt.sortDirection.value else Desc;
    var o := OrderByText(stmt.sortBy.value, dir);
    var q := SampleBuildQuery(stmt);
    var x := q[..|q| - |o|];
    assert q == x + o;
    ReadOrderByText(stmt.sortBy.value, dir, q);
  }

  /** The WHERE conditions of the two fixed queries; `$entityId`, `$tagKey`
      and `$tagValue` are parameters bound by the caller. */
  const EntityTagsWhere := "ut.userdata_id = $entityId"
  const AddTagWhere := "userdata_id = $entityId AND tag_key = $tagKey AND tag_value = $tagValue"

  // ----- the builder object ---------------------------------------------------

  /** The sample's `TagSqlBuilder` object; `sortBy` and `sortDirection` are
      the fields of its `currentParse` record. */
  class TagSqlBuilder {
    const builderConfig: Config
    const tagIdCache: TagIdCache
    var sortBy: SortBy
    var sortDirection: SortDirection

    ghost predicate Valid()
      reads this, tagIdCache.tagTrie, tagIdCache.tagTrie.Repr
    {
      tagIdCache.Valid() && this !in tagIdCache.tagTrie.Repr
    }

    ghost function Sort(): SortState
      reads this
    {
      SortState(sortBy, sortDirection)
    }

    constructor (builderConfig: Config, tagIdCache: TagIdCache)
      requires tagIdCache.Valid()
      ensures Valid() && Sort() == InitialSort
      ensures this.builderConfig == builderConfig && this.tagIdCache == tagIdCache
    {
      this.builderConfig := builderConfig;
      this.tagIdCache := tagIdCache;
      sortBy := Timestamp;
      sortDirection := Asc;
    }

    /** `parseMetaTag`. */
    method ParseMetaTag(tag: Filter) returns (r: Result<string, string>)
      requires Valid() && tag.MetaTag?
      modifies this`sortBy, this`sortDirection
      ensures Lowered(r, Sort()) == Lower(tag, tagIdCache.Model(), old(Sort()))
    {
      if tag.key == SortKey {
        if tag.value == "random" {
          sortBy := Random;
        } else if tag.value == "oldest" {
          sortBy := Timestamp;
          sortDirection := Asc;
        } else if tag.value == "newest" {
          sortBy := Timestamp;
          sortDirection := Desc;
        }
        return Success(AlwaysTrue);
      }
      var id := tagIdCache.TagToTagId(tag);
      if id.Failure? {
        return Failure(id.error);
      }
      return Success(TagCondition(id.value));
    }

    /** `sqlFilterConditions`: a failed lookup ends the traversal. */
    method SqlFilterConditions(filter: Filter) returns (r: Result<string, string>)
      requires Valid()
      modifies this`sortBy, this`sortDirection
      ensures Lowered(r, Sort()) == Lower(filter, tagIdCache.Model(), old(Sort()))
      decreases filter
    {
      match filter
      case Tag(_) =>
        var id := tagIdCache.TagToTagId(filter);
        if id.Failure? {
          return Failure(id.error);
        }
        return Success(TagCondition(id.value));
      case MetaTag(_, _) =>
        r := ParseMetaTag(filter);
      case TrueTag =>
        return Success(AlwaysTrue);
      case OrTag(left, right) =>
        var l := SqlFilterConditions(left);
        if l.Failure? {
          return l;
        }
        var rr := SqlFilterConditions(right);
        if rr.Failure? {
          return rr;
        }
        return Success("(" + l.value + " OR " + rr.value + ")");
      case AndTag(left, right) =>
        var l := SqlFilterConditions(left);
        if l.Failure? {
          return l;
        }
        var rr := SqlFilterConditions(right);
        if rr.Failure? {
          return rr;
        }
        return Success("(" + l.value + " AND " + rr.value + ")");
      case NotTag(inner) =>
        var i := SqlFilterConditions(inner);
        if i.Failure? {
          return i;
        }
        return Success("NOT (" + i.value + ")");
    }

    /** `setupParse`. */
    method SetupParse()
      modifies this`sortBy, this`sortDirection
      ensures Sort() == InitialSort
    {
      sortBy := Timestamp;
      sortDirection := Asc;
    }

    /** `buildListFilteredEntitiesQuery`: the same statement as the src
        builder's `buildTagFilterQuery`, whatever earlier calls left in the
        sort state. */
    method BuildListFilteredEntitiesQuery(filter: Filter) returns (r: Result<SampleStatement, string>)
      requires Valid()
      modifies this`sortBy, this`sortDirection
      ensures r == BuildListFilteredEntities(builderConfig, tagIdCache.Model(), filter)
      ensures Sort() == Lower(filter, tagIdCache.Model(), InitialSort).sort
    {
      SetupParse();
      var having := SqlFilterConditions(filter);
      if having.Failure? {
        return Failure(having.error);
      }
      var stmt := Statement(builderConfig, having.value, SortState(sortBy, sortDirection));
      return Success(Lift(stmt));
    }

    /** `buildListEntityTagsQuery`: the tags of one entity with their usage
        counts; it cannot fail. */
    function BuildListEntityTagsQuery(): (r: Result<SampleStatement, string>)
      ensures r.Success?
      ensures r.value.groupBy.None? && r.value.having.None? && r.value.sortBy.None?
    {
      Success(SampleStatement(
        "t.*, COUNT(ut.userdata_id) AS usage_count", "tags t",
        Some([Join(LeftOuter, "userdata_tags ut", "t.id = ut.tag_id")]),
        None, None, None, Some(EntityTagsWhere), None))
    }

    /** `buildAddTagToEntityQuery`: a lookup of one entity-tag row; it cannot
        fail. */
    function BuildAddTagToEntityQuery(): (r: Result<SampleStatement, string>)
      ensures r.Success?
      ensures r.value.joins.None? && r.value.groupBy.None? && r.value.having.None? && r.value.sortBy.None?
    {
      Success(SampleStatement(
        "*", "userdata_tags", None, None, None, None,
        Some(AddTagWhere), None))
    }
  }

  /** The text of `buildListEntityTagsQuery`: one LEFT join, the WHERE
      clause, and three trailing spaces for the empty GROUP BY, HAVING and
      ORDER BY slots. */
  lemma EntityTagsQueryText(b: TagSqlBuilder)
    ensures SampleBuildQuery(b.BuildListEntityTagsQuery().value)
            == QueryClause("t.*, COUNT(ut.userdata_id) AS usage_count", "tags t")
               + " " + JoinClause(Join(LeftOuter, "userdata_tags ut", "t.id = ut.tag_id"))
               + " " + ("WHERE " + EntityTagsWhere) + "   "
  {
    var j := Join(LeftOuter, "userdata_tags ut", "t.id = ut.tag_id");
    assert JoinClauses([j]) == [JoinClause(j)];
    var x := QueryClause("t.*, COUNT(ut.userdata_id) AS usage_count", "tags t")
             + " " + JoinClause(j) + " " + ("WHERE " + EntityTagsWhere);
    assert x + " " + "" + " " + "" + " " + "" == x + "   ";
  }

  /** The text of `buildAddTagToEntityQuery`: no join, so an empty slot
      before WHERE, and three trailing spaces. */
  lemma AddTagQueryText(b: TagSqlBuilder)
    ensures SampleBuildQuery(b.BuildAddTagToEntityQuery().value)
            == QueryClause("*", "userdata_tags") + "  "
               + ("WHERE " + AddTagWhere) + "   "
  {
    assert JoinClauses([]) == [];
    var q := QueryClause("*", "userdata_tags");
    var w := "WHERE " + AddTagWhere;
    assert q + " " + "" + " " == q + "  ";
    assert q + "  " + w + " " + "" + " " + "" + " " + "" == q + "  " + w + "   ";
  }
}
