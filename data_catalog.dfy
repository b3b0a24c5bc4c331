/**
 * The request the crime-statistics catalogue sends to the open-data service:
 * the accent folding applied to place names (`normalizarTexto`) and the
 * query string built from the user's filters (`getHechosFromApi`, up to the
 * point where the URL is opened). Upper-casing is the platform's
 * locale-dependent `uppercase()`; it is a parameter here.
 */
module DataCatalog {

  const BASE_URL: string := "https://www.datos.gov.co/resource/4rxi-8m8d.json"
  const DEPARTAMENTO_KEY: string := "departamento="
  const MUNICIPIO_KEY: string := "municipio="
  const WHERE_KEY: string := "$where="
  const LIMIT_KEY: string := "$limit="
  const STARTS_WITH_OPEN: string := "starts_with(fecha_hecho, '"
  const STARTS_WITH_CLOSE: string := "')"
  const ORDER_PARAM: string := "$order=fecha_hecho DESC"
  const SEPARATOR: string := "&"
  /** The `limit` the screen passes when it gives none. */
  const DEFAULT_LIMIT: int := 100

  /** One of the upper-case accented letters the folding replaces. */
  predicate IsAccented(c: char)
  {
    c == 'Á' || c == 'É' || c == 'Í' || c == 'Ó' || c == 'Ú' || c == 'Ñ'
  }

  /** The replacement table: Á É Í Ó Ú Ñ become A E I O U N; every other character stays. */
  function FoldChar(c: char): (d: char)
    ensures !IsAccented(d)
    ensures !IsAccented(c) ==> d == c
    ensures c == 'Á' ==> d == 'A'
    ensures c == 'É' ==> d == 'E'
    ensures c == 'Í' ==> d == 'I'
    ensures c == 'Ó' ==> d == 'O'
    ensures c == 'Ú' ==> d == 'U'
    ensures c == 'Ñ' ==> d == 'N'
  {
    if c == 'Á' then 'A'
    else if c == 'É' then 'E'
    else if c == 'Í' then 'I'
    else if c == 'Ó' then 'O'
    else if c == 'Ú' then 'U'
    else if c == 'Ñ' then 'N'
    else c
  }

  /**
   * The table applied to every character: the same length, each character
   * replaced by its folding, and no accented letter left.
   */
  function FoldAccents(s: string): (r: string)
    ensures |r| == |s|
    ensures forall i :: 0 <= i < |s| ==> r[i] == FoldChar(s[i])
    ensures forall i :: 0 <= i < |r| ==> !IsAccented(r[i])
  {
    if s == [] then [] else [FoldChar(s[0])] + FoldAccents(s[1..])
  }

  /** `normalizarTexto`: upper-case, then fold the accents. */
  function NormalizeText(upper: string -> string, texto: string): (r: string)
    ensures |r| == |upper(texto)|
    ensures forall i :: 0 <= i < |r| ==> r[i] == FoldChar(upper(texto)[i]) && !IsAccented(r[i])
  {
    FoldAccents(upper(texto))
  }

  /** Folding twice is folding once. */
  lemma {:induction false} FoldAccentsIdempotent(s: string)
    ensures FoldAccents(FoldAccents(s)) == FoldAccents(s)
  {
    if s != [] {
      FoldAccentsIdempotent(s[1..]);
      assert FoldAccents(s) == [FoldChar(s[0])] + FoldAccents(s[1..]);
    }
  }

  /** A string already free of accented letters is left as it is. */
  lemma {:induction false} FoldAccentsKeepsPlain(s: string)
    requires forall i :: 0 <= i < |s| ==> !IsAccented(s[i])
    ensures FoldAccents(s) == s
  {
    if s != [] {
      FoldAccentsKeepsPlain(s[1..]);
    }
  }

  /** An ASCII digit, which is what the pattern `\d` matches. */
  predicate IsDigit(c: char)
  {
    '0' <= c <= '9'
  }

  /** `anio` matches `\d{4}` as a whole. */
  predicate IsFourDigits(s: string)
  {
    |s| == 4 && forall i :: 0 <= i < 4 ==> IsDigit(s[i])
  }

  /** The decimal digits of a natural number, most significant first. */
  function NatToDecimal(n: nat): (r: string)
    ensures |r| >= 1
    ensures forall i :: 0 <= i < |r| ==> IsDigit(r[i])
    ensures n < 10 ==> |r| == 1
    ensures n >= 10 ==> r[0] != '0'
  {
    if n < 10 then [(('0' as int) + n) as char]
    else NatToDecimal(n / 10) + [(('0' as int) + n % 10) as char]
  }

  /** The value of one digit. */
  function DigitValue(c: char): (v: nat)
    requires IsDigit(c)
    ensures v <= 9
  {
    (c as int - '0' as int) as nat
  }

  /** The decimal value of a string of digits. */
  function DecimalValue(s: string): nat
    requires forall i :: 0 <= i < |s| ==> IsDigit(s[i])
  {
    if s == [] then 0 else 10 * DecimalValue(s[..|s| - 1]) + DigitValue(s[|s| - 1])
  }

  /** Reading the digits of n back gives n. */
  lemma {:induction false} NatToDecimalValue(n: nat)
    ensures DecimalValue(NatToDecimal(n)) == n
  {
    if n >= 10 {
      NatToDecimalValue(n / 10);
      var r := NatToDecimal(n);
      assert r[..|r| - 1] == NatToDecimal(n / 10);
    }
  }

  /** Kotlin's `Int.toString()`: a minus sign before the digits of a negative number. */
  function IntToDecimal(n: int): (r: string)
    ensures |r| >= 1
    ensures n >= 0 ==> r == NatToDecimal(n)
    ensures n < 0 ==> r == "-" + NatToDecimal(-n)
  {
    if n >= 0 then NatToDecimal(n) else "-" + NatToDecimal(-n)
  }

  /** The year filter's condition: records whose date starts with the year. */
  function WhereCondition(anio: string): (c: string)
    ensures |c| == |STARTS_WITH_OPEN| + |anio| + |STARTS_WITH_CLOSE|
    ensures c[..|STARTS_WITH_OPEN|] == STARTS_WITH_OPEN
    ensures c[|STARTS_WITH_OPEN|..|c| - |STARTS_WITH_CLOSE|] == anio
    ensures c[|c| - |STARTS_WITH_CLOSE|..] == STARTS_WITH_CLOSE
  {
    STARTS_WITH_OPEN + anio + STARTS_WITH_CLOSE
  }

  /** The `$where` parameter: the key, then the condition on the year. */
  function WhereParam(anio: string): (p: string)
    ensures |p| > |WHERE_KEY| && p[..|WHERE_KEY|] == WHERE_KEY
    ensures p[|WHERE_KEY|..] == WhereCondition(anio)
  {
    WHERE_KEY + WhereCondition(anio)
  }

  /** The `$limit` parameter: the key, then the limit in decimal. */
  function LimitParam(limit: int): (p: string)
    ensures |p| > |LIMIT_KEY| && p[..|LIMIT_KEY|] == LIMIT_KEY
    ensures p[|LIMIT_KEY|..] == IntToDecimal(limit)
  {
    LIMIT_KEY + IntToDecimal(limit)
  }

  /** With the default limit the parameter reads `$limit=100`. */
  lemma DefaultLimitParam()
    ensures LimitParam(DEFAULT_LIMIT) == "$limit=100"
  {
    assert NatToDecimal(1) == "1";
    assert NatToDecimal(10) == "10";
  }

  /**
   * The parameter list in the order `getHechosFromApi` adds them: each
   * optional filter that is present, then the limit and the order, which are
   * always last.
   */
  function QueryParams(upper: string -> string, departamento: string, municipio: string, anio: string, limit: int): (r: seq<string>)
    ensures 2 <= |r| <= 5
    ensures r[|r| - 2] == LimitParam(limit) && r[|r| - 1] == ORDER_PARAM
  {
    (if departamento != "" then [DEPARTAMENTO_KEY + NormalizeText(upper, departamento)] else [])
    + (if municipio != "" then [MUNICIPIO_KEY + NormalizeText(upper, municipio)] else [])
    + (if anio != "" && IsFourDigits(anio) then [WhereParam(anio)] else [])
    + [LimitParam(limit), ORDER_PARAM]
  }

  /** Kotlin's `joinToString(sep)`: the parts with the separator between neighbours. */
  function JoinWith(sep: string, parts: seq<string>): (r: string)
    ensures parts == [] ==> r == ""
    ensures parts != [] ==> |r| >= |parts[0]| && r[..|parts[0]|] == parts[0]
    ensures |parts| == 1 ==> r == parts[0]
  {
    if parts == [] then ""
    else if |parts| == 1 then parts[0]
    else parts[0] + sep + JoinWith(sep, parts[1..])
  }

  /** Joining a longer list: the separator and the new part go at the end. */
  lemma {:induction false} JoinWithSnoc(sep: string, parts: seq<string>, last: string)
    requires parts != []
    ensures JoinWith(sep, parts + [last]) == JoinWith(sep, parts) + sep + last
  {
    if |parts| == 1 {
      assert parts + [last] == [parts[0], last];
    } else {
      assert (parts + [last])[1..] == parts[1..] + [last];
      JoinWithSnoc(sep, parts[1..], last);
    }
  }

  /** The parameter starts with the given key. */
  predicate HasKey(param: string, key: string)
  {
    |param| >= |key| && param[..|key|] == key
  }

  /** A parameter that starts with a key agrees with it on its first two characters. */
  lemma KeyPrefix(param: string, key: string)
    requires |key| >= 2 && HasKey(param, key)
    ensures param[0] == key[0] && param[1] == key[1]
  {
    assert param[..|key|][0] == param[0] && param[..|key|][1] == param[1];
  }

  /** Some parameter of the list starts with the key. */
  predicate ListHasKey(params: seq<string>, key: string)
  {
    exists i :: 0 <= i < |params| && HasKey(params[i], key)
  }

  /** A parameter built as key + value starts with the key. */
  lemma {:induction false} ParamHead(key: string, value: string)
    requires |key| >= 2
    ensures HasKey(key + value, key)
    ensures (key + value)[0] == key[0] && (key + value)[1] == key[1]
  {
    assert (key + value)[..|key|] == key;
  }

  /**
   * The second character tells the parameters apart: "e" for the
   * department, "u" for the municipality, "w" for the year filter, "l" for
   * the limit and "o" for the order.
   */
  function Tag(param: string): char
  {
    if |param| >= 2 then param[1] else ' '
  }

  /** The parameter whose key is `key` carries the key's tag. */
  lemma {:induction false} KeyTag(param: string, key: string)
    requires |key| >= 2 && HasKey(param, key)
    ensures Tag(param) == key[1]
  {
    KeyPrefix(param, key);
  }

  /** Where each tag sits in the parameter list. */
  lemma QueryParamTags(upper: string -> string, departamento: string, municipio: string, anio: string, limit: int)
    ensures var ps := QueryParams(upper, departamento, municipio, anio, limit);
            var nd := if departamento != "" then 1 else 0;
            var nm := if municipio != "" then 1 else 0;
            var nw := if anio != "" && IsFourDigits(anio) then 1 else 0;
            && |ps| == nd + nm + nw + 2
            && (forall i :: 0 <= i < |ps| ==> (Tag(ps[i]) == 'e' <==> i < nd))
            && (forall i :: 0 <= i < |ps| ==> (Tag(ps[i]) == 'u' <==> nd <= i < nd + nm))
            && (forall i :: 0 <= i < |ps| ==> (Tag(ps[i]) == 'w' <==> nd + nm <= i < nd + nm + nw))
            && (departamento != "" ==> ps[0] == DEPARTAMENTO_KEY + NormalizeText(upper, departamento))
            && (municipio != "" ==> ps[nd] == MUNICIPIO_KEY + NormalizeText(upper, municipio))
            && (nw == 1 ==> ps[nd + nm] == WhereParam(anio))
  {
    var ps := QueryParams(upper, departamento, municipio, anio, limit);
    var dv := NormalizeText(upper, departamento);
    var mv := NormalizeText(upper, municipio);
    var d := if departamento != "" then [DEPARTAMENTO_KEY + dv] else [];
    var m := if municipio != "" then [MUNICIPIO_KEY + mv] else [];
    var w := if anio != "" && IsFourDigits(anio) then [WhereParam(anio)] else [];
    assert ps == d + m + w + [LimitParam(limit), ORDER_PARAM];
    ParamHead(DEPARTAMENTO_KEY, dv);
    ParamHead(MUNICIPIO_KEY, mv);
    ParamHead(WHERE_KEY, WhereCondition(anio));
    ParamHead(LIMIT_KEY, IntToDecimal(limit));
    assert Tag(ORDER_PARAM) == 'o';
  }

  /** A `departamento=` parameter is sent iff the department is non-empty, normalised and first. */
  lemma DepartamentoPresence(upper: string -> string, departamento: string, municipio: string, anio: string, limit: int)
    ensures var ps := QueryParams(upper, departamento, municipio, anio, limit);
            && (ListHasKey(ps, DEPARTAMENTO_KEY) <==> departamento != "")
            && (departamento != "" ==> ps[0] == DEPARTAMENTO_KEY + NormalizeText(upper, departamento))
  {
    var ps := QueryParams(upper, departamento, municipio, anio, limit);
    QueryParamTags(upper, departamento, municipio, anio, limit);
    if ListHasKey(ps, DEPARTAMENTO_KEY) {
      var i :| 0 <= i < |ps| && HasKey(ps[i], DEPARTAMENTO_KEY);
      KeyTag(ps[i], DEPARTAMENTO_KEY);
    }
    if departamento != "" {
      ParamHead(DEPARTAMENTO_KEY, NormalizeText(upper, departamento));
      assert HasKey(ps[0], DEPARTAMENTO_KEY);
    }
  }

  /** A `municipio=` parameter is sent iff the municipality is non-empty, normalised. */
  lemma MunicipioPresence(upper: string -> string, departamento: string, municipio: string, anio: string, limit: int)
    ensures var ps := QueryParams(upper, departamento, municipio, anio, limit);
            && (ListHasKey(ps, MUNICIPIO_KEY) <==> municipio != "")
            && (municipio != "" ==> MUNICIPIO_KEY + NormalizeText(upper, municipio) in ps)
  {
    var ps := QueryParams(upper, departamento, municipio, anio, limit);
    QueryParamTags(upper, departamento, municipio, anio, limit);
    if ListHasKey(ps, MUNICIPIO_KEY) {
      var i :| 0 <= i < |ps| && HasKey(ps[i], MUNICIPIO_KEY);
      KeyTag(ps[i], MUNICIPIO_KEY);
    }
    if municipio != "" {
      var nd := if departamento != "" then 1 else 0;
      ParamHead(MUNICIPIO_KEY, NormalizeText(upper, municipio));
      assert HasKey(ps[nd], MUNICIPIO_KEY);
    }
  }

  /** The year filter is sent iff the year is exactly four digits. */
  lemma YearFilterPresence(upper: string -> string, departamento: string, municipio: string, anio: string, limit: int)
    ensures var ps := QueryParams(upper, departamento, municipio, anio, limit);
            && (ListHasKey(ps, WHERE_KEY) <==> IsFourDigits(anio))
            && (IsFourDigits(anio) ==> WhereParam(anio) in ps)
  {
    var ps := QueryParams(upper, departamento, municipio, anio, limit);
    QueryParamTags(upper, departamento, municipio, anio, limit);
    if ListHasKey(ps, WHERE_KEY) {
      var i :| 0 <= i < |ps| && HasKey(ps[i], WHERE_KEY);
      KeyTag(ps[i], WHERE_KEY);
    }
    if IsFourDigits(anio) {
      var nd := if departamento != "" then 1 else 0;
      var nm := if municipio != "" then 1 else 0;
      ParamHead(WHERE_KEY, WhereCondition(anio));
      assert HasKey(ps[nd + nm], WHERE_KEY);
    }
  }

  /**
   * The request URL: the base, "?" and the joined parameters. The list is
   * never empty, so the "?" is always there.
   */
  function RequestUrl(upper: string -> string, departamento: string, municipio: string, anio: string, limit: int): (url: string)
    ensures |url| > |BASE_URL| && url[..|BASE_URL| + 1] == BASE_URL + "?"
  {
    BASE_URL + "?" + JoinWith(SEPARATOR, QueryParams(upper, departamento, municipio, anio, limit))
  }

  /** The string ends with the suffix. */
  predicate EndsWith(s: string, suffix: string)
  {
    |s| >= |suffix| && s[|s| - |suffix|..] == suffix
  }

  /** A suffix stays a suffix when something is put in front. */
  lemma EndsWithAfterPrefix(prefix: string, s: string, suffix: string)
    requires EndsWith(s, suffix)
    ensures EndsWith(prefix + s, suffix)
  {
    assert (prefix + s)[|prefix + s| - |suffix|..] == s[|s| - |suffix|..];
  }

  /** A joined list ends with its last part. */
  lemma {:induction false} JoinEndsWithLast(sep: string, parts: seq<string>)
    requires parts != []
    ensures EndsWith(JoinWith(sep, parts), parts[|parts| - 1])
  {
    if |parts| > 1 {
      JoinEndsWithLast(sep, parts[1..]);
      assert JoinWith(sep, parts) == (parts[0] + sep) + JoinWith(sep, parts[1..]);
      EndsWithAfterPrefix(parts[0] + sep, JoinWith(sep, parts[1..]), parts[|parts| - 1]);
    }
  }

  /** The order parameter always closes the URL. */
  lemma UrlEndsWithOrder(upper: string -> string, departamento: string, municipio: string, anio: string, limit: int)
    ensures EndsWith(RequestUrl(upper, departamento, municipio, anio, limit), ORDER_PARAM)
  {
    var ps := QueryParams(upper, departamento, municipio, anio, limit);
    JoinEndsWithLast(SEPARATOR, ps);
    EndsWithAfterPrefix(BASE_URL + "?", JoinWith(SEPARATOR, ps), ORDER_PARAM);
  }

  /** `getHechosFromApi`'s parameter list, grown one `add` at a time in the order above. */
  method BuildParams(upper: string -> string, departamento: string, municipio: string, anio: string, limit: int)
    returns (params: seq<string>)
    ensures params == QueryParams(upper, departamento, municipio, anio, limit)
  {
    ghost var deptoPart: seq<string> := if departamento != "" then [DEPARTAMENTO_KEY + NormalizeText(upper, departamento)] else [];
    ghost var muniPart: seq<string> := if municipio != "" then [MUNICIPIO_KEY + NormalizeText(upper, municipio)] else [];
    ghost var yearPart: seq<string> := if anio != "" && IsFourDigits(anio) then [WhereParam(anio)] else [];
    params := [];
    if departamento != "" {
      var deptoNorm := NormalizeText(upper, departamento);
      params := params + [DEPARTAMENTO_KEY + deptoNorm];
    }
    assert params == deptoPart;
    if municipio != "" {
      var muniNorm := NormalizeText(upper, municipio);
      params := params + [MUNICIPIO_KEY + muniNorm];
    }
    assert params == deptoPart + muniPart;
    if anio != "" && IsFourDigits(anio) {
      params := params + [WhereParam(anio)];
    }
    assert params == deptoPart + muniPart + yearPart;
    params := params + [LimitParam(limit)];
    params := params + [ORDER_PARAM];
    assert params == deptoPart + muniPart + yearPart + [LimitParam(limit), ORDER_PARAM];
  }

  /**
   * `getHechosFromApi` up to the request: the parameter list is appended
   * after "?" when it is not empty. The result is the request URL above.
   */
  method BuildUrl(upper: string -> string, departamento: string, municipio: string, anio: string, limit: int) returns (url: string)
    ensures url == RequestUrl(upper, departamento, municipio, anio, limit)
  {
    var params := BuildParams(upper, departamento, municipio, anio, limit);
    url := BASE_URL;
    if params != [] {
      url := url + "?";
      url := url + JoinWith(SEPARATOR, params);
    }
  }
}
