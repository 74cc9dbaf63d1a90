/** The database section of the service configuration and the Postgres
    connection string built from it (`Database.ToDataSourceName`). */
module Config {
  import opened Entities

  datatype Database = Database(
    host: string,
    port: int,
    user: string,
    password: string,
    name: string,
    schema: string)

  /** The schema used when the configuration leaves `schema` empty. */
  const DefaultSchema: string := "public"

  const Scheme: string := "postgres://"

  /** The fixed query string that sits between the database name and the schema. */
  const QueryTail: string := "?sslmode=disable&search_path="

  /** The value that ends up in `search_path`: the configured schema, or the
      default when it is empty. Only this copy is defaulted; the record is a value
      and is never changed. */
  function SearchPath(d: Database): (s: string)
    ensures s != ""
    ensures d.schema != "" ==> s == d.schema
    ensures d.schema == "" ==> s == DefaultSchema
  {
    if d.schema == "" then DefaultSchema else d.schema
  }

  /** The connection string: every field is spliced in as it is, with no escaping. */
  function ToDataSourceName(d: Database): (dsn: string)
    ensures |dsn| >= |Scheme + d.user + ":"| && dsn[..|Scheme + d.user + ":"|] == Scheme + d.user + ":"
    ensures |dsn| >= |"&search_path=" + SearchPath(d)|
    ensures dsn[|dsn| - |"&search_path=" + SearchPath(d)|..] == "&search_path=" + SearchPath(d)
  {
    var dsn := Scheme + d.user + ":" + d.password + "@" + d.host + ":" + Decimal(d.port)
               + "/" + d.name + QueryTail + SearchPath(d);
    assert dsn == (Scheme + d.user + ":") + (d.password + "@" + d.host + ":" + Decimal(d.port)
               + "/" + d.name + QueryTail + SearchPath(d));
    assert dsn == (Scheme + d.user + ":" + d.password + "@" + d.host + ":" + Decimal(d.port)
               + "/" + d.name + "?sslmode=disable") + ("&search_path=" + SearchPath(d));
    dsn
  }

  // ---------------------------------------------------------------------------
  // Decimal formatting of the port (Go's `%d`) and its inverse.

  predicate IsDigit(c: char) { '0' <= c <= '9' }

  function DigitChar(n: nat): (c: char)
    requires n < 10
    ensures IsDigit(c)
  {
    ('0' as int + n) as char
  }

  function DigitValue(c: char): (n: nat)
    requires IsDigit(c)
    ensures n < 10 && DigitChar(n) == c
  {
    (c as int - '0' as int) as nat
  }

  /** The decimal digits of `n`, most significant first, without leading zeros. */
  function NatDigits(n: nat): (s: string)
    ensures |s| > 0
    ensures forall i :: 0 <= i < |s| ==> IsDigit(s[i])
    decreases n
  {
    if n < 10 then [DigitChar(n)] else NatDigits(n / 10) + [DigitChar(n % 10)]
  }

  /** `%d` of a Go `int`: a minus sign for negative values, then the digits. */
  function Decimal(n: int): (s: string)
    ensures |s| > 0
    ensures forall i :: 0 <= i < |s| ==> IsDigit(s[i]) || s[i] == '-'
  {
    if n < 0 then "-" + NatDigits(-n) else NatDigits(n)
  }

  function ParseNat(s: string): (r: Option<nat>)
    decreases |s|
  {
    if s == [] || !IsDigit(s[|s| - 1]) then None
    else if |s| == 1 then Some(DigitValue(s[0]))
    else
      var high :- ParseNat(s[..|s| - 1]);
      Some(high * 10 + DigitValue(s[|s| - 1]))
  }

  function ParseInt(s: string): (r: Option<int>) {
    if |s| > 0 && s[0] == '-' then
      var n :- ParseNat(s[1..]);
      Some(-(n as int))
    else
      var n :- ParseNat(s);
      Some(n)
  }

  lemma {:induction false} NatDigitsRoundTrip(n: nat)
    ensures ParseNat(NatDigits(n)) == Some(n)
    decreases n
  {
    if n >= 10 {
      var s := NatDigits(n);
      NatDigitsRoundTrip(n / 10);
      assert s[..|s| - 1] == NatDigits(n / 10);
      assert s[|s| - 1] == DigitChar(n % 10);
    }
  }

  /** Formatting the port and reading it back gives the same number. */
  lemma DecimalRoundTrip(n: int)
    ensures ParseInt(Decimal(n)) == Some(n)
  {
    if n < 0 {
      NatDigitsRoundTrip(-n);
      assert ("-" + NatDigits(-n))[1..] == NatDigits(-n);
    } else {
      NatDigitsRoundTrip(n);
      assert NatDigits(n)[0] != '-';
    }
  }

  // ---------------------------------------------------------------------------
  // Reading a connection string back into its fields.

  /** Splits `s` at the first occurrence of `c`. */
  function SplitAt(s: string, c: char): (r: Option<(string, string)>)
  {
    if s == [] then None
    else if s[0] == c then Some(([], s[1..]))
    else
      var (a, b) :- SplitAt(s[1..], c);
      Some(([s[0]] + a, b))
  }

  function StripPrefix(s: string, p: string): (r: Option<string>)
  {
    if |p| <= |s| && s[..|p|] == p then Some(s[|p|..]) else None
  }

  lemma {:induction false} SplitAtJoin(a: string, c: char, b: string)
    requires c !in a
    ensures SplitAt(a + [c] + b, c) == Some((a, b))
  {
    if a != [] {
      assert (a + [c] + b)[1..] == a[1..] + [c] + b;
      SplitAtJoin(a[1..], c, b);
      assert [a[0]] + a[1..] == a;
    } else {
      assert a + [c] + b == [c] + b;
    }
  }

  lemma StripPrefixJoin(p: string, r: string)
    ensures StripPrefix(p + r, p) == Some(r)
  {
    assert (p + r)[..|p|] == p;
    assert (p + r)[|p|..] == r;
  }

  /** Parses a connection string of the shape `ToDataSourceName` produces. */
  function ParseDataSourceName(dsn: string): (d: Option<Database>)
  {
    var afterScheme :- StripPrefix(dsn, Scheme);
    var (user, r1) :- SplitAt(afterScheme, ':');
    var (password, r2) :- SplitAt(r1, '@');
    var (host, r3) :- SplitAt(r2, ':');
    var (portText, r4) :- SplitAt(r3, '/');
    var port :- ParseInt(portText);
    var (name, r5) :- SplitAt(r4, '?');
    var schema :- StripPrefix(r5, QueryTail[1..]);
    Some(Database(host, port, user, password, name, schema))
  }

  /** The delimiters that the unescaped fields must not contain for the
      connection string to be read back unambiguously. */
  predicate Unambiguous(d: Database) {
    ':' !in d.user && '@' !in d.password && ':' !in d.host && '?' !in d.name
  }

  /** The connection string, with its parts grouped from the right, the way the
      parser takes it apart. */
  lemma DataSourceNameLayout(d: Database)
    ensures ToDataSourceName(d) == Scheme + (d.user + ":" + (d.password + "@" + (d.host + ":"
      + (Decimal(d.port) + "/" + (d.name + "?" + (QueryTail[1..] + SearchPath(d)))))))
  {
    assert QueryTail == "?" + QueryTail[1..];
  }

  /** When no field contains a delimiter, the connection string determines the
      configuration, except that an empty schema comes back as `public`. */
  lemma ParseRoundTrip(d: Database)
    requires Unambiguous(d)
    ensures ParseDataSourceName(ToDataSourceName(d)) == Some(d.(schema := SearchPath(d)))
  {
    var port := Decimal(d.port);
    var tail := QueryTail[1..];
    var r5 := tail + SearchPath(d);
    var r4 := d.name + "?" + r5;
    var r3 := port + "/" + r4;
    var r2 := d.host + ":" + r3;
    var r1 := d.password + "@" + r2;
    var r0 := d.user + ":" + r1;
    DataSourceNameLayout(d);
    assert StripPrefix(ToDataSourceName(d), Scheme) == Some(r0) by {
      StripPrefixJoin(Scheme, r0);
    }
    assert SplitAt(r0, ':') == Some((d.user, r1)) by {
      SplitAtJoin(d.user, ':', r1);
      assert r0 == d.user + [':'] + r1;
    }
    assert SplitAt(r1, '@') == Some((d.password, r2)) by {
      SplitAtJoin(d.password, '@', r2);
      assert r1 == d.password + ['@'] + r2;
    }
    assert SplitAt(r2, ':') == Some((d.host, r3)) by {
      SplitAtJoin(d.host, ':', r3);
      assert r2 == d.host + [':'] + r3;
    }
    assert SplitAt(r3, '/') == Some((port, r4)) by {
      assert forall i :: 0 <= i < |port| ==> port[i] != '/';
      SplitAtJoin(port, '/', r4);
      assert r3 == port + ['/'] + r4;
    }
    assert ParseInt(port) == Some(d.port) by {
      DecimalRoundTrip(d.port);
    }
    assert SplitAt(r4, '?') == Some((d.name, r5)) by {
      SplitAtJoin(d.name, '?', r5);
      assert r4 == d.name + ['?'] + r5;
    }
    assert StripPrefix(r5, tail) == Some(SearchPath(d)) by {
      StripPrefixJoin(tail, SearchPath(d));
    }
  }

  /** Fields are not escaped: moving a colon-separated piece from the front of
      the password to the end of the user name gives a different configuration
      with the same connection string. */
  lemma UnescapedFieldsCollide(d: Database, piece: string)
    ensures var a := d.(user := d.user + ":" + piece, password := d.password);
            var b := d.(password := piece + ":" + d.password);
            a != b && ToDataSourceName(a) == ToDataSourceName(b)
  {
    var a := d.(user := d.user + ":" + piece, password := d.password);
    var b := d.(password := piece + ":" + d.password);
    assert |a.user| != |b.user|;
    var rest := d.host + ":" + (Decimal(d.port) + "/" + (d.name + "?" + (QueryTail[1..] + SearchPath(d))));
    DataSourceNameLayout(a);
    DataSourceNameLayout(b);
    assert (d.user + ":" + piece) + ":" + (d.password + "@" + rest)
        == d.user + ":" + ((piece + ":" + d.password) + "@" + rest);
  }

  /** An empty schema and an explicit `public` schema connect identically. */
  lemma EmptySchemaIsPublic(d: Database)
    ensures ToDataSourceName(d.(schema := "")) == ToDataSourceName(d.(schema := DefaultSchema))
  {
  }
}
