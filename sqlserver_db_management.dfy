/**
 * The SQL Server 2008 catalogue queries used by the database test tooling:
 * each is a fixed text with the catalog, schema and table spliced in
 * verbatim between single quotes. A null argument is spliced in as the text
 * "null", as Java string concatenation does; a null schema is replaced by
 * the default schema, except when creating a schema.
 */
module SqlServerDbManagement {
  import opened Common

  const SQLSERVER2008_DEFAULT_SCHEMA: string := "public"

  /** The fixed start of the all-columns query, up to the catalog. */
  const GET_ALL_COLUMNS_SQL: string :=
    "SELECT column_name AS name,data_type AS datatype,is_nullable AS allowsnull,column_default AS defaultvalue FROM information_schema.columns WHERE table_catalog='"

  // The fixed pieces of the catalogue queries, around the spliced-in arguments.
  const FOREIGN_KEYS_START: string :=
    "SELECT constraint_name AS name, table_name FROM information_schema.table_constraints WHERE constraint_catalog = '"
  const FOREIGN_KEYS_SCHEMA: string := "' AND constraint_schema = '"
  const FOREIGN_KEYS_END: string := "' AND constraint_type = 'FOREIGN KEY'"
  const SEQUENCES_START: string :=
    "SELECT sequence_name AS name FROM information_schema.sequences WHERE sequence_catalog = '"
  const SEQUENCES_SCHEMA: string := "' AND sequence_schema = '"
  const TABLES_START: string := "SELECT table_name AS name FROM information_schema.tables WHERE table_catalog = '"
  const TABLES_SCHEMA: string := "' AND table_schema = '"
  const BASE_TABLE_END: string := "' AND table_type = 'BASE TABLE'"
  const VIEW_END: string := "' AND table_type = 'VIEW'"
  const COLUMNS_SCHEMA: string := "' AND table_schema='"
  const COLUMNS_TABLE: string := "' AND table_name='"
  const QUOTE: string := "'"

  /**
   * `query` is `start`, then `arg` verbatim, then `rest`: the argument sits
   * right after the fixed start and the query ends with the fixed rest.
   */
  predicate Frames(query: string, start: string, arg: string, rest: string) {
    && |query| == |start| + |arg| + |rest|
    && query[..|start|] == start
    && query[|start|..|start| + |arg|] == arg
    && query[|start| + |arg|..] == rest
  }

  /** A query made of fixed start, argument, and a rest of three parts. */
  lemma FramesOf(start: string, arg: string, m: string, b: string, t: string)
    ensures Frames(start + arg + m + b + t, start, arg, m + b + t)
  {
  }

  /** A query made of fixed start, argument, and a rest of five parts. */
  lemma FramesOfLonger(start: string, arg: string, m: string, b: string, n: string, c: string, t: string)
    ensures Frames(start + arg + m + b + n + c + t, start, arg, m + b + n + c + t)
  {
  }

  function DatabaseName(): (name: string)
    ensures name == "sqlserver2008"
  {
    "sqlserver2008"
  }

  /** The schema a query is about: the given one, or the default when it is null. */
  function EffectiveSchema(schema: Option<string>): (s: string)
    ensures schema.None? ==> s == SQLSERVER2008_DEFAULT_SCHEMA
    ensures schema.Some? ==> s == schema.value
  {
    if schema.None? then SQLSERVER2008_DEFAULT_SCHEMA else schema.value
  }

  /** The same query whatever the catalog. */
  function AllSchemasSQL(catalog: Option<string>): (query: string)
    ensures query == "SELECT nspname AS name from pg_namespace"
  {
    "SELECT nspname AS name from pg_namespace"
  }

  function AllForeignKeyConstraintsSQL(catalog: Option<string>, schema: Option<string>): (query: string)
    ensures Frames(query, FOREIGN_KEYS_START, Show(catalog),
                   FOREIGN_KEYS_SCHEMA + EffectiveSchema(schema) + FOREIGN_KEYS_END)
  {
    FramesOf(FOREIGN_KEYS_START, Show(catalog), FOREIGN_KEYS_SCHEMA, EffectiveSchema(schema), FOREIGN_KEYS_END);
    FOREIGN_KEYS_START + Show(catalog) + FOREIGN_KEYS_SCHEMA + EffectiveSchema(schema) + FOREIGN_KEYS_END
  }

  function AllSequencesSQL(catalog: Option<string>, schema: Option<string>): (query: string)
    ensures Frames(query, SEQUENCES_START, Show(catalog), SEQUENCES_SCHEMA + EffectiveSchema(schema) + QUOTE)
  {
    FramesOf(SEQUENCES_START, Show(catalog), SEQUENCES_SCHEMA, EffectiveSchema(schema), QUOTE);
    SEQUENCES_START + Show(catalog) + SEQUENCES_SCHEMA + EffectiveSchema(schema) + QUOTE
  }

  function AllTablesSQL(catalog: Option<string>, schema: Option<string>): (query: string)
    ensures Frames(query, TABLES_START, Show(catalog), TABLES_SCHEMA + EffectiveSchema(schema) + BASE_TABLE_END)
  {
    FramesOf(TABLES_START, Show(catalog), TABLES_SCHEMA, EffectiveSchema(schema), BASE_TABLE_END);
    TABLES_START + Show(catalog) + TABLES_SCHEMA + EffectiveSchema(schema) + BASE_TABLE_END
  }

  function AllViewsSQL(catalog: Option<string>, schema: Option<string>): (query: string)
    ensures Frames(query, TABLES_START, Show(catalog), TABLES_SCHEMA + EffectiveSchema(schema) + VIEW_END)
  {
    FramesOf(TABLES_START, Show(catalog), TABLES_SCHEMA, EffectiveSchema(schema), VIEW_END);
    TABLES_START + Show(catalog) + TABLES_SCHEMA + EffectiveSchema(schema) + VIEW_END
  }

  function AllColumnsSQL(catalog: Option<string>, schema: Option<string>, table: Option<string>): (query: string)
    ensures Frames(query, GET_ALL_COLUMNS_SQL, Show(catalog),
                   COLUMNS_SCHEMA + EffectiveSchema(schema) + COLUMNS_TABLE + Show(table) + QUOTE)
  {
    FramesOfLonger(GET_ALL_COLUMNS_SQL, Show(catalog), COLUMNS_SCHEMA, EffectiveSchema(schema), COLUMNS_TABLE, Show(table), QUOTE);
    GET_ALL_COLUMNS_SQL + Show(catalog) + COLUMNS_SCHEMA + EffectiveSchema(schema) + COLUMNS_TABLE + Show(table) + QUOTE
  }

  /** The schema as given, null included: no default applies here. */
  function CreateSchemaSQL(catalog: Option<string>, schema: Option<string>): (statement: string)
    ensures Frames(statement, "CREATE SCHEMA ", Show(schema), "")
  {
    "CREATE SCHEMA " + Show(schema)
  }

  // ---------------------------------------------------------------------------
  // Properties

  /** A null schema means the default schema in every query but schema creation. */
  lemma NullSchemaIsDefault(catalog: Option<string>, table: Option<string>)
    ensures AllForeignKeyConstraintsSQL(catalog, None) == AllForeignKeyConstraintsSQL(catalog, Some("public"))
    ensures AllSequencesSQL(catalog, None) == AllSequencesSQL(catalog, Some("public"))
    ensures AllTablesSQL(catalog, None) == AllTablesSQL(catalog, Some("public"))
    ensures AllViewsSQL(catalog, None) == AllViewsSQL(catalog, Some("public"))
    ensures AllColumnsSQL(catalog, None, table) == AllColumnsSQL(catalog, Some("public"), table)
  {
  }

  /** Schema creation applies no default: a null schema is written as "null". */
  lemma CreateSchemaHasNoDefault(catalog: Option<string>)
    ensures CreateSchemaSQL(catalog, None) == "CREATE SCHEMA null"
    ensures CreateSchemaSQL(catalog, None) != CreateSchemaSQL(catalog, Some(SQLSERVER2008_DEFAULT_SCHEMA))
  {
  }

  /** The schemas query does not depend on the catalog. */
  lemma SchemasIgnoreCatalog(a: Option<string>, b: Option<string>)
    ensures AllSchemasSQL(a) == AllSchemasSQL(b)
  {
  }

  predicate NoQuote(s: string) {
    forall i :: 0 <= i < |s| ==> s[i] != '\''
  }

  predicate StartsWithQuote(s: string) {
    |s| > 0 && s[0] == '\''
  }

  /** An argument that, spliced into a query, cannot close the quotes around it. */
  predicate QuoteFree(arg: Option<string>) {
    NoQuote(Show(arg))
  }

  /** Two quote-free texts each followed by a quote: equal wholes split at the same place. */
  lemma SplitAtQuote(a1: string, a2: string, t1: string, t2: string)
    requires NoQuote(a1) && NoQuote(a2)
    requires StartsWithQuote(t1) && StartsWithQuote(t2)
    requires a1 + t1 == a2 + t2
    ensures a1 == a2 && t1 == t2
  {
    assert a1 == (a1 + t1)[..|a1|];
    assert a2 == (a2 + t2)[..|a2|];
    assert t1 == (a1 + t1)[|a1|..];
    assert t2 == (a2 + t2)[|a2|..];
  }

  lemma StripPrefix(p: string, x: string, y: string)
    requires p + x == p + y
    ensures x == y
  {
    assert x == (p + x)[|p|..];
    assert y == (p + y)[|p|..];
  }

  /**
   * A query of the shape prefix, first argument, middle, second argument,
   * rest, with quote-free arguments and middle and rest opening with a quote,
   * determines both arguments and the rest.
   */
  lemma RecoverArguments(p: string, m: string, a1: string, b1: string, t1: string, a2: string, b2: string, t2: string)
    requires NoQuote(a1) && NoQuote(a2) && NoQuote(b1) && NoQuote(b2)
    requires StartsWithQuote(m) && StartsWithQuote(t1) && StartsWithQuote(t2)
    requires p + a1 + m + b1 + t1 == p + a2 + m + b2 + t2
    ensures a1 == a2 && b1 == b2 && t1 == t2
  {
    assert p + a1 + m + b1 + t1 == p + (a1 + (m + (b1 + t1)));
    assert p + a2 + m + b2 + t2 == p + (a2 + (m + (b2 + t2)));
    StripPrefix(p, a1 + (m + (b1 + t1)), a2 + (m + (b2 + t2)));
    SplitAtQuote(a1, a2, m + (b1 + t1), m + (b2 + t2));
    StripPrefix(m, b1 + t1, b2 + t2);
    SplitAtQuote(b1, b2, t1, t2);
  }

  /** With quote-free arguments, the tables query names its catalog and schema unambiguously. */
  lemma TablesQueryDeterminesArguments(c1: Option<string>, s1: Option<string>, c2: Option<string>, s2: Option<string>)
    requires QuoteFree(c1) && QuoteFree(c2) && NoQuote(EffectiveSchema(s1)) && NoQuote(EffectiveSchema(s2))
    requires AllTablesSQL(c1, s1) == AllTablesSQL(c2, s2)
    ensures Show(c1) == Show(c2) && EffectiveSchema(s1) == EffectiveSchema(s2)
  {
    RecoverArguments(TABLES_START, TABLES_SCHEMA, Show(c1), EffectiveSchema(s1), BASE_TABLE_END,
      Show(c2), EffectiveSchema(s2), BASE_TABLE_END);
  }

  /** With quote-free arguments, the views query names its catalog and schema unambiguously. */
  lemma ViewsQueryDeterminesArguments(c1: Option<string>, s1: Option<string>, c2: Option<string>, s2: Option<string>)
    requires QuoteFree(c1) && QuoteFree(c2) && NoQuote(EffectiveSchema(s1)) && NoQuote(EffectiveSchema(s2))
    requires AllViewsSQL(c1, s1) == AllViewsSQL(c2, s2)
    ensures Show(c1) == Show(c2) && EffectiveSchema(s1) == EffectiveSchema(s2)
  {
    RecoverArguments(TABLES_START, TABLES_SCHEMA, Show(c1), EffectiveSchema(s1), VIEW_END,
      Show(c2), EffectiveSchema(s2), VIEW_END);
  }

  /** What the tables and views queries share: everything up to the table type. */
  function TablesQueryPrefix(catalog: Option<string>, schema: Option<string>): string {
    TABLES_START + Show(catalog) + TABLES_SCHEMA + EffectiveSchema(schema)
  }

  /**
   * The tables and views queries are identical except for the table type
   * they filter on, and so no tables query is ever a views query, whatever
   * the arguments.
   */
  lemma TablesAreNeverViews(c1: Option<string>, s1: Option<string>, c2: Option<string>, s2: Option<string>)
    ensures AllTablesSQL(c1, s1) == TablesQueryPrefix(c1, s1) + BASE_TABLE_END
    ensures AllViewsSQL(c2, s2) == TablesQueryPrefix(c2, s2) + VIEW_END
    ensures AllTablesSQL(c1, s1) != AllViewsSQL(c2, s2)
  {
    var tables, views := AllTablesSQL(c1, s1), AllViewsSQL(c2, s2);
    assert tables[|tables| - 2] == BASE_TABLE_END[|BASE_TABLE_END| - 2] == 'E';
    assert views[|views| - 2] == VIEW_END[|VIEW_END| - 2] == 'W';
  }

  /** With quote-free arguments, the sequences query names its catalog and schema unambiguously. */
  lemma SequencesQueryDeterminesArguments(c1: Option<string>, s1: Option<string>, c2: Option<string>,
                                          s2: Option<string>)
    requires QuoteFree(c1) && QuoteFree(c2) && NoQuote(EffectiveSchema(s1)) && NoQuote(EffectiveSchema(s2))
    requires AllSequencesSQL(c1, s1) == AllSequencesSQL(c2, s2)
    ensures Show(c1) == Show(c2) && EffectiveSchema(s1) == EffectiveSchema(s2)
  {
    RecoverArguments(SEQUENCES_START, SEQUENCES_SCHEMA, Show(c1), EffectiveSchema(s1), QUOTE,
      Show(c2), EffectiveSchema(s2), QUOTE);
  }

  /**
   * With quote-free arguments, the foreign-key query names its catalog and
   * schema unambiguously.
   */
  lemma ForeignKeysQueryDeterminesArguments(c1: Option<string>, s1: Option<string>, c2: Option<string>,
                                            s2: Option<string>)
    requires QuoteFree(c1) && QuoteFree(c2) && NoQuote(EffectiveSchema(s1)) && NoQuote(EffectiveSchema(s2))
    requires AllForeignKeyConstraintsSQL(c1, s1) == AllForeignKeyConstraintsSQL(c2, s2)
    ensures Show(c1) == Show(c2) && EffectiveSchema(s1) == EffectiveSchema(s2)
  {
    RecoverArguments(FOREIGN_KEYS_START, FOREIGN_KEYS_SCHEMA, Show(c1), EffectiveSchema(s1), FOREIGN_KEYS_END,
      Show(c2), EffectiveSchema(s2), FOREIGN_KEYS_END);
  }

  lemma GroupTail(a: string, b: string, c: string, d: string)
    ensures a + b + c + d == a + (b + (c + d))
  {
  }

  /**
   * The columns query is the fixed start, then the catalog, schema and table
   * each closed by a quote; with quote-free catalog and schema it names all
   * three unambiguously (the table is last, so it may hold quotes).
   */
  lemma ColumnsQueryDeterminesArguments(c1: Option<string>, s1: Option<string>, t1: Option<string>,
                                        c2: Option<string>, s2: Option<string>, t2: Option<string>)
    requires QuoteFree(c1) && QuoteFree(c2) && NoQuote(EffectiveSchema(s1)) && NoQuote(EffectiveSchema(s2))
    requires AllColumnsSQL(c1, s1, t1) == AllColumnsSQL(c2, s2, t2)
    ensures Show(c1) == Show(c2) && EffectiveSchema(s1) == EffectiveSchema(s2) && Show(t1) == Show(t2)
  {
    var rest1, rest2 := COLUMNS_TABLE + (Show(t1) + QUOTE), COLUMNS_TABLE + (Show(t2) + QUOTE);
    GroupTail(GET_ALL_COLUMNS_SQL + Show(c1) + COLUMNS_SCHEMA + EffectiveSchema(s1), COLUMNS_TABLE, Show(t1), QUOTE);
    GroupTail(GET_ALL_COLUMNS_SQL + Show(c2) + COLUMNS_SCHEMA + EffectiveSchema(s2), COLUMNS_TABLE, Show(t2), QUOTE);
    RecoverArguments(GET_ALL_COLUMNS_SQL, COLUMNS_SCHEMA, Show(c1), EffectiveSchema(s1), rest1,
      Show(c2), EffectiveSchema(s2), rest2);
    StripPrefix(COLUMNS_TABLE, Show(t1) + QUOTE, Show(t2) + QUOTE);
    assert Show(t1) == (Show(t1) + QUOTE)[..|Show(t1)|];
    assert Show(t2) == (Show(t2) + QUOTE)[..|Show(t2)|];
  }

  /**
   * Catalog and schema are spliced in unescaped: a catalog that carries the
   * schema clause and a schema that carries it give the same foreign-key
   * query for different catalog and schema pairs.
   */
  lemma QuotesMakeQueriesAmbiguous(x: string, y: string, z: string)
    ensures var m := FOREIGN_KEYS_SCHEMA;
      && Some(x + m + y) != Some(x)
      && AllForeignKeyConstraintsSQL(Some(x + m + y), Some(z)) == AllForeignKeyConstraintsSQL(Some(x), Some(y + m + z))
  {
    var m := FOREIGN_KEYS_SCHEMA;
    assert |x + m + y| != |x|;
    assert FOREIGN_KEYS_START + (x + m + y) + m + z + FOREIGN_KEYS_END
        == FOREIGN_KEYS_START + x + m + (y + m + z) + FOREIGN_KEYS_END;
  }
}
