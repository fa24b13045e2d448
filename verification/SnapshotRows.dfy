/** Snapshot rows, the composite cache key, and what one complete load answers. */
module SnapshotRows {
  import opened Wrappers

  datatype Row = Row(purl: string, symbol: string, json: string)

  /** One complete read of the store. It answers for every package URL it was asked about, absence included. */
  datatype BulkLoad = BulkLoad(rows: seq<Row>, at: int)

  datatype Cached = Cached(at: int, json: string, ok: bool)

  function Key(purl: string, symbol: string): string {
    purl + "|" + symbol
  }

  /** The first matching row's payload, if any. */
  function FromRows(rows: seq<Row>, purl: string, symbol: string): Option<string> {
    if rows == [] then None
    else if rows[0].purl == purl && rows[0].symbol == symbol then Some(rows[0].json)
    else FromRows(rows[1..], purl, symbol)
  }

  method SnapshotFromRows(rows: seq<Row>, purl: string, symbol: string) returns (json: string, ok: bool)
    ensures FromRows(rows, purl, symbol) == if ok then Some(json) else None
    ensures !ok ==> json == ""
  {
    var i := 0;
    while i < |rows|
      invariant 0 <= i <= |rows|
      invariant FromRows(rows, purl, symbol) == FromRows(rows[i..], purl, symbol)
    {
      if rows[i].purl == purl && rows[i].symbol == symbol {
        return rows[i].json, true;
      }
      assert rows[i..][1..] == rows[i + 1..];
      i := i + 1;
    }
    return "", false;
  }

  /** The store holds one row per package URL and symbol. */
  predicate UniqueRows(rows: seq<Row>) {
    forall i, j | 0 <= i < j < |rows| :: rows[i].purl != rows[j].purl || rows[i].symbol != rows[j].symbol
  }

  function RowsOf(rows: seq<Row>, purl: string): seq<Row> {
    if rows == [] then []
    else if rows[|rows| - 1].purl == purl then RowsOf(rows[..|rows| - 1], purl) + [rows[|rows| - 1]]
    else RowsOf(rows[..|rows| - 1], purl)
  }

  method GroupRows(rows: seq<Row>) returns (groups: map<string, seq<Row>>)
    ensures forall p: string :: RowsOf(rows, p) == if p in groups then groups[p] else []
  {
    groups := map[];
    var i := 0;
    while i < |rows|
      invariant 0 <= i <= |rows|
      invariant forall p: string :: RowsOf(rows[..i], p) == if p in groups then groups[p] else []
    {
      assert rows[..i + 1][..i] == rows[..i];
      var row := rows[i];
      groups := groups[row.purl := (if row.purl in groups then groups[row.purl] else []) + [row]];
      i := i + 1;
    }
    assert rows[..i] == rows;
  }

  function KeysOf(rows: seq<Row>): seq<string> {
    if rows == [] then [] else KeysOf(rows[..|rows| - 1]) + [Key(rows[|rows| - 1].purl, rows[|rows| - 1].symbol)]
  }

  function PayloadBytes(rows: seq<Row>): nat {
    if rows == [] then 0
    else
      var row := rows[|rows| - 1];
      PayloadBytes(rows[..|rows| - 1]) + |row.purl| + |row.symbol| + 1 + |row.json| + 64
  }

  // ------------------------------------------------------------------- the composite key

  /** The key starts with the package URL and the separator; what follows is read as the symbol. */
  predicate Under(purl: string, key: string) {
    |purl| < |key| && key[..|purl|] == purl && key[|purl|] == '|'
  }

  function SymbolIn(purl: string, key: string): string
    requires Under(purl, key)
  {
    key[|purl| + 1..]
  }

  /** Two package URLs one of which, with the separator appended, is a prefix of the other. */
  predicate Clash(p: string, q: string) {
    p != q && (p + "|" <= q + "|" || q + "|" <= p + "|")
  }

  /** With the separator appended, none of the package URLs is a prefix of another. */
  predicate PrefixFree(purls: seq<string>) {
    forall i, j | 0 <= i < |purls| && 0 <= j < |purls| :: !Clash(purls[i], purls[j])
  }

  lemma UnderIsAKey(purl: string, symbol: string, key: string)
    ensures key == Key(purl, symbol) <==> Under(purl, key) && SymbolIn(purl, key) == symbol
  {
    if Under(purl, key) && SymbolIn(purl, key) == symbol {
      assert key == key[..|purl|] + [key[|purl|]] + key[|purl| + 1..];
    }
  }

  lemma UnderTwoClashes(p: string, q: string, key: string)
    requires p != q && Under(p, key) && Under(q, key)
    ensures Clash(p, q)
  {
    assert p + "|" == key[..|p| + 1] && q + "|" == key[..|q| + 1];
    if |p| < |q| {
      assert key[..|q| + 1][..|p| + 1] == key[..|p| + 1];
    } else if |q| < |p| {
      assert key[..|p| + 1][..|q| + 1] == key[..|q| + 1];
    }
  }

  lemma {:induction false} ClashMakesAKey(p: string, q: string) returns (s: string, t: string)
    requires p != q && p + "|" <= q + "|"
    ensures Key(p, s) == Key(q, t)
  {
    var whole := q + "|";
    s, t := whole[|p| + 1..], "";
    assert whole[..|p| + 1] == p + "|";
    assert Key(p, s) == whole[..|p| + 1] + whole[|p| + 1..] == whole;
    assert Key(q, t) == whole;
  }

  /**
    Two package URLs can share a composite key exactly when they clash: a set of them is safe if and only if it is
    prefix-free with the separator appended.
  */
  lemma KeysMeetIffClash(p: string, q: string)
    requires p != q
    ensures (exists s, t :: Key(p, s) == Key(q, t)) <==> Clash(p, q)
  {
    if s, t :| Key(p, s) == Key(q, t) {
      UnderIsAKey(p, s, Key(p, s));
      UnderIsAKey(q, t, Key(p, s));
      UnderTwoClashes(p, q, Key(p, s));
    }
    if Clash(p, q) {
      if p + "|" <= q + "|" {
        var s, t := ClashMakesAKey(p, q);
      } else {
        var t, s := ClashMakesAKey(q, p);
      }
    }
  }

  /** Package URLs without the separator never clash. */
  lemma ClashNeedsASeparator(p: string, q: string)
    ensures Clash(p, q) ==> '|' in p || '|' in q
  {
    if p + "|" <= q + "|" {
      assert p == (q + "|")[..|p|] && (q + "|")[|p|] == '|';
    }
    if q + "|" <= p + "|" {
      assert q == (p + "|")[..|q|] && (p + "|")[|q|] == '|';
    }
  }

  /** Among package URLs that do not clash a composite key names one package URL and one symbol. */
  lemma KeyIsInjective(purl: string, symbol: string, purl': string, symbol': string)
    requires !Clash(purl, purl')
    ensures Key(purl, symbol) == Key(purl', symbol') <==> purl == purl' && symbol == symbol'
  {
    if Key(purl, symbol) == Key(purl', symbol') {
      UnderIsAKey(purl, symbol, Key(purl, symbol));
      UnderIsAKey(purl', symbol', Key(purl, symbol));
      if purl != purl' {
        UnderTwoClashes(purl, purl', Key(purl, symbol));
      }
    }
  }

  // ------------------------------------------------------------------------ row facts

  lemma {:induction false} FromRowsAt(rows: seq<Row>, i: nat)
    requires i < |rows| && UniqueRows(rows)
    ensures FromRows(rows, rows[i].purl, rows[i].symbol) == Some(rows[i].json)
  {
    if i == 0 {
    } else {
      assert rows[1..][i - 1] == rows[i];
      FromRowsAt(rows[1..], i - 1);
    }
  }

  lemma {:induction false} FromRowsFinds(rows: seq<Row>, purl: string, symbol: string) returns (i: nat)
    requires FromRows(rows, purl, symbol).Some?
    ensures i < |rows| && rows[i].purl == purl && rows[i].symbol == symbol
  {
    if rows[0].purl == purl && rows[0].symbol == symbol {
      i := 0;
    } else {
      var j := FromRowsFinds(rows[1..], purl, symbol);
      i := j + 1;
    }
  }

  lemma {:induction false} FromRowsAppend(rows: seq<Row>, row: Row, purl: string, symbol: string)
    ensures FromRows(rows + [row], purl, symbol)
         == if FromRows(rows, purl, symbol).Some? then FromRows(rows, purl, symbol)
            else if row.purl == purl && row.symbol == symbol then Some(row.json) else None
  {
    if rows == [] {
    } else {
      assert (rows + [row])[1..] == rows[1..] + [row];
      FromRowsAppend(rows[1..], row, purl, symbol);
    }
  }

  /** Grouping loses nothing: a package URL's own rows answer as the whole load does. */
  lemma {:induction false} GroupAnswersAlike(rows: seq<Row>, purl: string, symbol: string)
    ensures FromRows(RowsOf(rows, purl), purl, symbol) == FromRows(rows, purl, symbol)
  {
    if rows == [] {
    } else {
      var init, row := rows[..|rows| - 1], rows[|rows| - 1];
      assert rows == init + [row];
      GroupAnswersAlike(init, purl, symbol);
      FromRowsAppend(init, row, purl, symbol);
      FromRowsAppend(RowsOf(init, purl), row, purl, symbol);
    }
  }

  lemma {:induction false} RowsOfAreOwn(rows: seq<Row>, purl: string)
    requires UniqueRows(rows)
    ensures UniqueRows(RowsOf(rows, purl))
    ensures forall i | 0 <= i < |RowsOf(rows, purl)| ::
      RowsOf(rows, purl)[i].purl == purl && RowsOf(rows, purl)[i] in rows
  {
    if rows == [] {
    } else {
      RowsOfAreOwn(rows[..|rows| - 1], purl);
    }
  }

  /** Among one package URL's rows, a key is listed exactly when the load has the symbol. */
  lemma {:induction false} KeyIsListed(rows: seq<Row>, purl: string, key: string)
    requires forall i | 0 <= i < |rows| :: rows[i].purl == purl
    ensures key in KeysOf(rows) <==> Under(purl, key) && FromRows(rows, purl, SymbolIn(purl, key)).Some?
  {
    if rows == [] {
    } else {
      var init, row := rows[..|rows| - 1], rows[|rows| - 1];
      assert rows == init + [row];
      KeyIsListed(init, purl, key);
      UnderIsAKey(purl, row.symbol, key);
      if Under(purl, key) {
        FromRowsAppend(init, row, purl, SymbolIn(purl, key));
      }
    }
  }
}
