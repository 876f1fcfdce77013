/**
 * The `toPowershell` Jinja2 filter: renders a dict as a PowerShell hashtable
 * literal `@{'key'='value';...}` and any other value as False.
 */
module Powershell {
  import opened Py
  import opened Strings

  /**
   * The filter's argument: a dict, given by the `str()` of each of its keys
   * and values, or any value that is not a dict.
   */
  datatype Argument = Dict(entries: map<string, string>) | NotDict

  /** What the filter returns: the hashtable literal, or False. */
  datatype Rendered = Hashtable(text: string) | False

  /** One `'key'='value';` entry, quoted but not escaped. */
  function Entry(key: string, value: string): string {
    "'" + key + "'='" + value + "';"
  }

  /** The entries of the first `n` pairs, one after the other. */
  function Body(items: seq<(string, string)>, n: nat): string
    requires n <= |items|
  {
    if n == 0 then "" else Body(items, n - 1) + Entry(items[n - 1].0, items[n - 1].1)
  }

  /**
   * `toPowershell`: the dict's pairs in their iteration order (returned as
   * `items`), each appended as an entry between `@{` and `}`; anything that is
   * not a dict gives False.
   */
  method ToPowershell(x: Argument) returns (r: Rendered, ghost items: seq<(string, string)>)
    ensures x.NotDict? <==> r == False
    ensures x.Dict? ==> IsEnumeration(KeysOf(items), x.entries.Keys)
    ensures x.Dict? ==> forall i :: 0 <= i < |items| ==> items[i].0 in x.entries && items[i].1 == x.entries[items[i].0]
    ensures x.Dict? ==> |items| == |x.entries| && r == Hashtable("@{" + Body(items, |items|) + "}")
    ensures x.Dict? && x.entries == map[] ==> r == Hashtable("@{}")
    ensures x.Dict? && QuoteFree(x.entries) ==> ParseHashtable(r.text) == Some(items)
  {
    if x.NotDict? {
      return False, [];
    }
    var pairs := DictItems(x.entries);
    var text := Render(pairs);
    r, items := Hashtable(text), pairs;
    if QuoteFree(x.entries) {
      assert forall i :: 0 <= i < |items| ==> items[i].0 in x.entries && items[i].1 == x.entries[items[i].0];
      ParseWritten(items);
    }
  }

  /** The loop of `toPowershell` over the pairs, between `@{` and `}`. */
  method Render(pairs: seq<(string, string)>) returns (text: string)
    ensures text == "@{" + Body(pairs, |pairs|) + "}"
  {
    text := "@{";
    var i := 0;
    while i < |pairs|
      invariant i <= |pairs| && text == "@{" + Body(pairs, i)
    {
      text := text + Entry(pairs[i].0, pairs[i].1);
      i := i + 1;
    }
    text := text + "}";
  }

  /** No key and no value of the dict contains a single quote. */
  predicate QuoteFree(m: map<string, string>) {
    forall k :: k in m ==> '\'' !in k && '\'' !in m[k]
  }

  /** The pieces between the quotes of the first `n` entries: key, `=`, value, `;` for each. */
  function Pieces(items: seq<(string, string)>, n: nat): (r: seq<string>)
    requires n <= |items|
    ensures |r| == 4 * n
  {
    if n == 0 then [] else Pieces(items, n - 1) + [items[n - 1].0, "=", items[n - 1].1, ";"]
  }

  /** Reads `key = value ;` groups back into pairs. */
  function Pairs(pieces: seq<string>): Option<seq<(string, string)>>
    decreases |pieces|
  {
    if |pieces| == 0 then Some([])
    else if |pieces| < 4 then None
    else
      var n := |pieces| - 4;
      if pieces[n + 1] != "=" || pieces[n + 3] != ";" then None
      else
        match Pairs(pieces[..n])
        case None => None
        case Some(init) => Some(init + [(pieces[n], pieces[n + 2])])
  }

  /**
   * Reads a hashtable literal back into its pairs: the text between `@{` and
   * `}`, cut at the single quotes, must be an empty piece followed by
   * `key = value ;` groups.
   */
  function ParseHashtable(text: string): Option<seq<(string, string)>> {
    if |text| < 3 || text[..2] != "@{" || text[|text| - 1] != '}' then None
    else
      var parts := Split(text[2..|text| - 1], "'");
      if parts[0] != "" then None else Pairs(parts[1..])
  }

  lemma {:induction false} PairsOfPieces(items: seq<(string, string)>, n: nat)
    requires n <= |items|
    ensures Pairs(Pieces(items, n)) == Some(items[..n])
  {
    if n > 0 {
      var init := Pieces(items, n - 1);
      var p := Pieces(items, n);
      assert p[..4 * (n - 1)] == init;
      PairsOfPieces(items, n - 1);
      assert items[..n] == items[..n - 1] + [(items[n - 1].0, items[n - 1].1)];
    }
  }

  /** Joining four more parts appends each after its own separator. */
  lemma JoinGroup(before: seq<string>, a: string, b: string, c: string, d: string, sep: string)
    requires |before| >= 1
    ensures Join(before + [a, b, c, d], sep) == Join(before, sep) + sep + a + sep + b + sep + c + sep + d
  {
    JoinSnoc(before, a, sep);
    JoinSnoc(before + [a], b, sep);
    JoinSnoc(before + [a] + [b], c, sep);
    JoinSnoc(before + [a] + [b] + [c], d, sep);
    assert before + [a] + [b] + [c] + [d] == before + [a, b, c, d];
  }

  /** An entry is its key, `=`, its value and `;`, each after a single quote. */
  lemma EntryPieces(j: string, k: string, v: string)
    ensures j + "'" + k + "'" + "=" + "'" + v + "'" + ";" == j + Entry(k, v)
  {
    assert "'='" == "'" + "=" + "'";
    assert "';" == "'" + ";";
  }

  /** The written entries are the pieces joined by single quotes, after an empty first piece. */
  lemma {:induction false} BodyIsJoin(items: seq<(string, string)>, n: nat)
    requires n <= |items|
    ensures Body(items, n) == Join([""] + Pieces(items, n), "'")
  {
    if n > 0 {
      BodyIsJoin(items, n - 1);
      var k, v := items[n - 1].0, items[n - 1].1;
      var before := [""] + Pieces(items, n - 1);
      JoinGroup(before, k, "=", v, ";", "'");
      EntryPieces(Join(before, "'"), k, v);
      assert [""] + Pieces(items, n) == [""] + Pieces(items, n - 1) + [k, "=", v, ";"];
    }
  }

  /** Every part of quote-free pairs' entries, the empty first one included, is quote-free. */
  lemma PartsQuoteFree(items: seq<(string, string)>, n: nat)
    requires n <= |items|
    requires forall i :: 0 <= i < |items| ==> '\'' !in items[i].0 && '\'' !in items[i].1
    ensures forall j :: 0 <= j < |[""] + Pieces(items, n)| ==> !Contains(([""] + Pieces(items, n))[j], "'")
  {
    var parts := [""] + Pieces(items, n);
    forall j | 0 <= j < |parts|
      ensures !Contains(parts[j], "'")
    {
      if j == 0 {
        ContainsChar("", '\'');
      } else {
        assert parts[j] == Pieces(items, n)[j - 1];
        PieceIsFieldOrMark(items, n, j - 1);
        ContainsChar(parts[j], '\'');
      }
    }
  }

  lemma {:induction false} PieceIsFieldOrMark(items: seq<(string, string)>, n: nat, j: nat)
    requires n <= |items| && j < 4 * n
    requires forall i :: 0 <= i < |items| ==> '\'' !in items[i].0 && '\'' !in items[i].1
    ensures '\'' !in Pieces(items, n)[j]
  {
    if j < 4 * (n - 1) {
      PieceIsFieldOrMark(items, n - 1, j);
    }
  }

  /** A text in braces is cut at the single quotes between them. */
  lemma ParseBraces(body: string)
    ensures ParseHashtable("@{" + body + "}")
            == (var parts := Split(body, "'"); if parts[0] != "" then None else Pairs(parts[1..]))
  {
    var text := "@{" + body + "}";
    assert text[..2] == "@{" && text[2..|text| - 1] == body;
  }

  /** Quote-free pairs' entries split at the quotes into an empty piece and their pieces. */
  lemma SplitBody(items: seq<(string, string)>)
    requires forall i :: 0 <= i < |items| ==> '\'' !in items[i].0 && '\'' !in items[i].1
    ensures Split(Body(items, |items|), "'") == [""] + Pieces(items, |items|)
  {
    var parts := [""] + Pieces(items, |items|);
    BodyIsJoin(items, |items|);
    PartsQuoteFree(items, |items|);
    JoinSplit(parts, "'");
  }

  /** For pairs without single quotes, the written hashtable reads back as exactly those pairs. */
  lemma ParseWritten(items: seq<(string, string)>)
    requires forall i :: 0 <= i < |items| ==> '\'' !in items[i].0 && '\'' !in items[i].1
    ensures ParseHashtable("@{" + Body(items, |items|) + "}") == Some(items)
  {
    ParseBraces(Body(items, |items|));
    SplitBody(items);
    assert ([""] + Pieces(items, |items|))[1..] == Pieces(items, |items|);
    PairsOfPieces(items, |items|);
    assert items[..|items|] == items;
  }

  /**
   * Nothing is escaped: a value holding `';'k2'='v2` is written exactly like
   * the value up to that point followed by a second entry `k2`, so a dict
   * whose values contain quotes is not always recovered from the text.
   */
  lemma QuoteInjection(k: string, v: string, k2: string, v2: string)
    ensures Entry(k, v + "';'" + k2 + "'='" + v2) == Entry(k, v) + Entry(k2, v2)
  {
  }

  /** Two different dicts that the filter can render as the same text. */
  lemma AmbiguousRendering(k: string, v: string, k2: string, v2: string)
    requires k != k2
    ensures var one := [(k, v + "';'" + k2 + "'='" + v2)];
            var two := [(k, v), (k2, v2)];
            one != two && Body(one, 1) == Body(two, 2)
  {
    var one := [(k, v + "';'" + k2 + "'='" + v2)];
    var two := [(k, v), (k2, v2)];
    QuoteInjection(k, v, k2, v2);
    assert Body(one, 1) == "" + Entry(k, v + "';'" + k2 + "'='" + v2);
    assert Body(two, 1) == "" + Entry(k, v);
    assert |one| != |two|;
  }
}
