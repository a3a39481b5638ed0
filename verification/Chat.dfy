/** Chat history and its cursors (internal/repo/chat_repo.go; parsePage and formatCursor of
    internal/globalcore/core.go). Message ids are the auto-increment key: positive, below 2^64. */
module Chat {
  import opened Common

  const LIMIT_64 := 0x1_0000_0000_0000_0000

  datatype PageError = InvalidListLimit | InvalidCursor

  // ---- Cursors ----

  predicate IsDigit(c: char) { '0' <= c <= '9' }

  /** The decimal number a string of digits denotes. */
  function Number(s: string): nat {
    if s == "" then 0
    else 10 * Number(s[..|s| - 1]) + DigitValue(s[|s| - 1])
  }

  function DigitValue(c: char): nat { if IsDigit(c) then (c - '0') as nat else 0 }

  function DigitChar(d: nat): char
    requires d < 10
  {
    d as char + '0'
  }

  function Digits(n: nat): string {
    if n == 0 then "" else Digits(n / 10) + [DigitChar(n % 10)]
  }

  function ParseUint64(s: string): Option<nat> {
    if s != "" && (forall i :: 0 <= i < |s| ==> IsDigit(s[i])) && Number(s) < LIMIT_64 then Some(Number(s)) else None
  }

  function ParsePage(cursor: string, limit: int): Result<(nat, int), PageError> {
    var size := if limit == 0 then 20 else limit;
    if size < 1 || size > 50 then Err(InvalidListLimit)
    else if cursor == "" then Ok((0, size))
    else match ParseUint64(cursor)
      case None => Err(InvalidCursor)
      case Some(value) => Ok((value, size))
  }

  function FormatCursor(cursor: nat): string { if cursor == 0 then "" else Digits(cursor) }

  lemma {:induction false} DigitsDenote(n: nat)
    ensures Number(Digits(n)) == n && (forall i :: 0 <= i < |Digits(n)| ==> IsDigit(Digits(n)[i]))
    ensures n > 0 ==> Digits(n) != "" && Digits(n)[0] != '0'
  {
    if n > 0 {
      DigitsDenote(n / 10);
      assert Digits(n)[..|Digits(n)| - 1] == Digits(n / 10);
    }
  }

  lemma LastDigit(v: nat, d: nat)
    requires d < 10
    ensures (10 * v + d) / 10 == v && (10 * v + d) % 10 == d
  {
  }

  lemma {:induction false} NumberIsWritten(s: string)
    requires s != "" && s[0] != '0' && forall i :: 0 <= i < |s| ==> IsDigit(s[i])
    ensures Number(s) > 0 && Digits(Number(s)) == s
  {
    var k := |s| - 1;
    var v, d := Number(s[..k]), DigitValue(s[k]);
    if k > 0 {
      NumberIsWritten(s[..k]);
    } else {
      assert s[..k] == "" && d > 0;
    }
    assert Digits(v) == s[..k];
    LastDigit(v, d);
    assert Number(s) == 10 * v + d > 0;
    assert Digits(Number(s)) == Digits(v) + [DigitChar(d)];
    assert s == s[..k] + [s[k]];
  }

  /** Reading a cursor gives back the number it was written from, for every 64-bit id. */
  lemma ParseFormatted(cursor: nat, limit: int)
    requires cursor < LIMIT_64 && 0 <= limit <= 50
    ensures ParsePage(FormatCursor(cursor), limit) == Ok((cursor, if limit == 0 then 20 else limit))
  {
    DigitsDenote(cursor);
  }

  /** The other way round it is the same string exactly when it is empty or does not begin with a zero. */
  lemma FormatParsedIff(s: string, limit: int)
    requires ParsePage(s, limit).Ok?
    ensures FormatCursor(ParsePage(s, limit).value.0) == s <==> s == "" || s[0] != '0'
  {
    if s != "" {
      if s[0] != '0' { NumberIsWritten(s); }
      DigitsDenote(Number(s));
    }
  }

  /** A request is accepted exactly with a limit from 1 to 50, or 0 for 20, and a cursor that is empty or a
      number below 2^64; the limit is looked at first. */
  lemma ParsePageIff(cursor: string, limit: int)
    ensures var r, wellFormed := ParsePage(cursor, limit), cursor == "" || ((forall i :: 0 <= i < |cursor| ==> '0' <= cursor[i] <= '9') && Number(cursor) < LIMIT_64);
      && (r.Ok? <==> 0 <= limit <= 50 && wellFormed)
      && (r == Err(InvalidListLimit) <==> !(0 <= limit <= 50))
      && (r.Ok? ==> r.value == (if cursor == "" then 0 else Number(cursor), if limit == 0 then 20 else limit))
  {
  }

  // ---- Pages ----

  datatype Row = Row(id: nat, channel: string, uid: string, content: string)

  /** The messages of a channel, below an id unless that is 0, in id order. */
  function Matching(rows: seq<Row>, channel: string, before: nat): seq<Row> {
    if rows == [] then []
    else
      var r := rows[|rows| - 1];
      Matching(rows[..|rows| - 1], channel, before) + if r.channel == channel && (before == 0 || r.id < before) then [r] else []
  }

  /** The query: the newest `n` of them, newest first. */
  function Newest(m: seq<Row>, n: nat): seq<Row> {
    seq(if |m| < n then |m| else n, i requires 0 <= i < (if |m| < n then |m| else n) => m[|m| - 1 - i])
  }

  datatype Page = Page(rows: seq<Row>, next: nat)

  /** The last `limit` messages, oldest first; the cursor is the oldest of them if there are more. */
  function PageOf(rows: seq<Row>, channel: string, before: nat, limit: nat): Page
    requires limit > 0
  {
    PageFrom(Matching(rows, channel, before), limit)
  }

  function PageFrom(m: seq<Row>, limit: nat): Page
    requires limit > 0
  {
    if |m| <= limit then Page(m, 0) else Page(m[|m| - limit..], m[|m| - limit].id)
  }

  class MessageTable {
    var rows: seq<Row>
    var nextId: nat

    ghost predicate Valid()
      reads this
    {
      Ascending(rows) && nextId > 0 && forall i :: 0 <= i < |rows| ==> rows[i].id < nextId
    }

    constructor ()
      ensures Valid() && rows == []
    {
      rows, nextId := [], 1;
    }

    method CreateChatMessage(channel: string, uid: string, content: string) returns (row: Row)
      requires Valid()
      modifies this
      ensures Valid() && row == Row(old(nextId), channel, uid, content) && rows == old(rows) + [row]
    {
      row := Row(nextId, channel, uid, content);
      rows := rows + [row];
      nextId := nextId + 1;
    }

    /** The rows come newest first and are turned round in a new array. */
    method ListChatMessages(channel: string, before: nat, limit: nat) returns (result: array<Row>, next: nat)
      requires limit > 0
      ensures fresh(result) && Page(result[..], next) == PageOf(rows, channel, before, limit)
    {
      var found := Newest(Matching(rows, channel, before), limit + 1);
      NewestReversed(Matching(rows, channel, before), limit);
      next := 0;
      if |found| > limit {
        found := found[..limit];
        next := found[|found| - 1].id;
      }
      result := TurnedRound(found);
    }
  }

  method TurnedRound(found: seq<Row>) returns (result: array<Row>)
    ensures fresh(result) && result[..] == Reversed(found)
  {
    result := new Row[|found|];
    for i := 0 to |found|
      invariant forall j :: |found| - i <= j < |found| ==> result[j] == found[|found| - 1 - j]
    {
      result[|found| - 1 - i] := found[i];
    }
  }

  function Reversed(s: seq<Row>): (r: seq<Row>)
    ensures |r| == |s|
  {
    seq(|s|, i requires 0 <= i < |s| => s[|s| - 1 - i])
  }

  /** One row more than the limit is asked for: whether it comes tells if there is a next page. */
  lemma NewestReversed(m: seq<Row>, limit: nat)
    requires limit > 0
    ensures var found := Newest(m, limit + 1);
      PageFrom(m, limit) == if |found| > limit then Page(Reversed(found[..limit]), found[limit - 1].id) else Page(Reversed(found), 0)
  {
    var found := Newest(m, limit + 1);
    if |found| > limit {
      assert Reversed(found[..limit]) == m[|m| - limit..];
    } else {
      assert Reversed(found) == m;
    }
  }

  // ---- Following the cursors ----

  ghost predicate Ascending(rows: seq<Row>) {
    && (forall i :: 0 <= i < |rows| ==> 0 < rows[i].id)
    && forall i, j :: 0 <= i < j < |rows| ==> rows[i].id < rows[j].id
  }

  /** One request: the table as it then is, and the limit asked for. */
  datatype Pull = Pull(rows: seq<Row>, limit: int)

  datatype Followed = Followed(joined: seq<Row>, cursor: string, done: bool)

  /** Pull from "" on, each time with the cursor that came back, until that is "" again; pages are
      joined oldest first. */
  function Follow(channel: string, pulls: seq<Pull>): Followed {
    if pulls == [] then Followed([], "", false) else Pulled(channel, Follow(channel, pulls[..|pulls| - 1]), pulls[|pulls| - 1])
  }

  /** Between pulls the table only gains rows with larger ids. */
  ghost predicate Growing(pulls: seq<Pull>) {
    && (forall k :: 0 <= k < |pulls| ==> Ascending(pulls[k].rows) && pulls[0].rows <= pulls[k].rows && 0 <= pulls[k].limit <= 50)
    && (pulls != [] ==> forall i :: 0 <= i < |pulls[0].rows| ==> pulls[0].rows[i].id < LIMIT_64)
  }

  lemma {:induction false} MatchingBelow(rows: seq<Row>, n: nat, channel: string, before: nat)
    requires n <= |rows| && Ascending(rows) && before > 0 && (n < |rows| ==> before <= rows[n].id)
    ensures Matching(rows, channel, before) == Matching(rows[..n], channel, before)
    decreases |rows|
  {
    if n == |rows| {
      assert rows[..n] == rows;
    } else {
      MatchingBelow(rows[..|rows| - 1], n, channel, before);
      assert rows[..|rows| - 1][..n] == rows[..n];
      assert before <= rows[n].id <= rows[|rows| - 1].id;
    }
  }

  lemma {:induction false} MatchingAll(rows: seq<Row>, channel: string, before: nat)
    requires forall i :: 0 <= i < |rows| ==> rows[i].id < before
    ensures Matching(rows, channel, before) == Matching(rows, channel, 0)
  {
    if rows != [] { MatchingAll(rows[..|rows| - 1], channel, before); }
  }

  lemma {:induction false} MatchingRows(rows: seq<Row>, channel: string)
    requires Ascending(rows)
    ensures var m := Matching(rows, channel, 0);
      Ascending(m) && forall i :: 0 <= i < |m| ==> exists k :: 0 <= k < |rows| && rows[k] == m[i]
  {
    if rows != [] {
      var init := rows[..|rows| - 1];
      MatchingRows(init, channel);
      var m := Matching(rows, channel, 0);
      forall i | 0 <= i < |m| ensures exists k :: 0 <= k < |rows| && rows[k] == m[i] {
        if i < |Matching(init, channel, 0)| {
          var k :| 0 <= k < |init| && init[k] == Matching(init, channel, 0)[i];
          assert rows[k] == m[i];
        } else {
          assert rows[|rows| - 1] == m[i];
        }
      }
    }
  }

  /** The query selects by channel and id and by nothing else. */
  lemma {:induction false} MatchingIff(rows: seq<Row>, channel: string, before: nat, r: Row)
    ensures r in Matching(rows, channel, before) <==> r in rows && r.channel == channel && (before == 0 || r.id < before)
  {
    if rows != [] {
      MatchingIff(rows[..|rows| - 1], channel, before, r);
      assert rows == rows[..|rows| - 1] + [rows[|rows| - 1]];
    }
  }

  lemma {:induction false} MatchingAscends(rows: seq<Row>, channel: string, before: nat)
    requires Ascending(rows)
    ensures Ascending(Matching(rows, channel, before))
  {
    if rows != [] {
      var init := rows[..|rows| - 1];
      MatchingAscends(init, channel, before);
      var m := Matching(init, channel, before);
      forall i | 0 <= i < |m| ensures m[i].id < rows[|rows| - 1].id {
        MatchingIff(init, channel, before, m[i]);
        assert m[i] in init;
      }
    }
  }

  /** A page holds the newest messages of its channel below the cursor, oldest first, as many as asked for if
      there are as many; the next cursor is 0 exactly when nothing older is left out. */
  lemma PageMeans(rows: seq<Row>, channel: string, before: nat, limit: nat, r: Row)
    requires limit > 0 && Ascending(rows)
    ensures var page, wanted := PageOf(rows, channel, before, limit), r in rows && r.channel == channel && (before == 0 || r.id < before);
      && |page.rows| <= limit && Ascending(page.rows)
      && (r in page.rows ==> wanted)
      && (wanted && r !in page.rows ==> |page.rows| == limit && page.next == page.rows[0].id && r.id < page.next)
      && (page.next == 0 || (|page.rows| == limit && page.next == page.rows[0].id && exists q :: q in Matching(rows, channel, before) && q.id < page.next))
  {
    var m := Matching(rows, channel, before);
    MatchingIff(rows, channel, before, r);
    MatchingAscends(rows, channel, before);
    if |m| > limit {
      assert m[0] in m && m[0].id < m[|m| - limit].id;
      assert r in m ==> r in m[..|m| - limit] || r in m[|m| - limit..] by { assert m == m[..|m| - limit] + m[|m| - limit..]; }
    }
  }

  /** Asking below the id of a message gives exactly the messages before it. */
  lemma {:induction false} MatchingBefore(rows: seq<Row>, channel: string, p: nat)
    requires Ascending(rows) && p < |Matching(rows, channel, 0)|
    ensures var m := Matching(rows, channel, 0); Matching(rows, channel, m[p].id) == m[..p]
  {
    var m, init, r := Matching(rows, channel, 0), rows[..|rows| - 1], rows[|rows| - 1];
    var m0 := Matching(init, channel, 0);
    MatchingRows(rows, channel);
    MatchingRows(init, channel);
    if p < |m0| {
      MatchingBefore(init, channel, p);
      var k :| 0 <= k < |init| && init[k] == m0[p];
      assert m[p] == m0[p] && m0[p].id < r.id;
    } else {
      MatchingAll(init, channel, r.id);
    }
  }

  /** The same holds of any table that has only grown since. */
  lemma GrownMatchingBefore(first: seq<Row>, rows: seq<Row>, channel: string, p: nat)
    requires Ascending(rows) && first <= rows && p < |Matching(first, channel, 0)|
    ensures var m := Matching(first, channel, 0); m[p].id > 0 && Matching(rows, channel, m[p].id) == m[..p]
  {
    var m := Matching(first, channel, 0);
    assert forall i :: 0 <= i < |first| ==> first[i] == rows[i];
    MatchingRows(first, channel);
    var k :| 0 <= k < |first| && first[k] == m[p];
    assert |first| < |rows| ==> rows[k].id < rows[|first|].id;
    MatchingBelow(rows, |first|, channel, m[p].id);
    assert rows[..|first|] == first;
    MatchingBefore(first, channel, p);
  }

  /** The pages so far are the newest messages of `m`, none missing; the cursor names the oldest. */
  ghost predicate Collected(m: seq<Row>, s: Followed, pulls: nat) {
    if s.done then s.joined == m
    else pulls <= |s.joined| && 0 < |s.joined| < |m| && s.joined == m[|m| - |s.joined|..] && s.cursor == FormatCursor(m[|m| - |s.joined|].id)
  }

  function Pulled(channel: string, s: Followed, p: Pull): Followed {
    var parsed := ParsePage(s.cursor, p.limit);
    if s.done || parsed.Err? then s
    else
      var page := PageOf(p.rows, channel, parsed.value.0, parsed.value.1);
      var cursor := FormatCursor(page.next);
      Followed(page.rows + s.joined, cursor, cursor == "")
  }

  lemma PageJoins(m: seq<Row>, at: nat, size: nat)
    requires at <= |m| && size > 0
    ensures var page := PageFrom(m[..at], size);
      if at > size then page.rows + m[at..] == m[at - size..] && page.next == m[at - size].id
      else page.rows + m[at..] == m && page.next == 0
  {
    if at > size {
      assert m[..at][at - size..] + m[at..] == m[at - size..];
    } else {
      assert m[..at] + m[at..] == m;
    }
  }

  /** One pull takes the next page off the front of what is left of `m`. */
  lemma PullTakes(channel: string, s: Followed, p: Pull, m: seq<Row>, value: nat, at: nat, size: nat)
    requires !s.done && ParsePage(s.cursor, p.limit) == Ok((value, size)) && size > 0
    requires at <= |m| && Matching(p.rows, channel, value) == m[..at] && s.joined == m[at..]
    requires at > size ==> m[at - size].id > 0
    ensures Takes(m, Pulled(channel, s, p), at, size)
  {
    PageJoins(m, at, size);
    if at > size { DigitsDenote(m[at - size].id); }
  }

  /** `t` is what a pull of `size` rows makes of `at` rows that are left. */
  ghost predicate Takes(m: seq<Row>, t: Followed, at: nat, size: nat)
    requires at <= |m| && size > 0
  {
    if at > size then !t.done && t.joined == m[at - size..] && t.cursor == FormatCursor(m[at - size].id)
    else t.done && t.joined == m
  }

  lemma TakesCollects(m: seq<Row>, t: Followed, at: nat, size: nat, n: nat)
    requires size > 0 && at <= |m| && n <= |m| - at && Takes(m, t, at, size)
    ensures Collected(m, t, n + 1)
  {
  }

  lemma FirstPull(channel: string, p: Pull)
    requires Ascending(p.rows) && 0 <= p.limit <= 50
    ensures Collected(Matching(p.rows, channel, 0), Pulled(channel, Followed([], "", false), p), 1)
  {
    var m, size := Matching(p.rows, channel, 0), PageSize(p.limit);
    MatchingRows(p.rows, channel);
    assert m[..|m|] == m && m[|m|..] == [];
    PullTakes(channel, Followed([], "", false), p, m, 0, |m|, size);
    TakesCollects(m, Pulled(channel, Followed([], "", false), p), |m|, size, 0);
  }

  lemma NextPull(channel: string, first: seq<Row>, s: Followed, p: Pull, n: nat)
    requires Ascending(first) && Ascending(p.rows) && first <= p.rows && 0 <= p.limit <= 50
    requires forall i :: 0 <= i < |first| ==> first[i].id < LIMIT_64
    requires n > 0 && Collected(Matching(first, channel, 0), s, n)
    ensures Collected(Matching(first, channel, 0), Pulled(channel, s, p), n + 1)
  {
    if !s.done {
      var m, size := Matching(first, channel, 0), PageSize(p.limit);
      var at := |m| - |s.joined|;
      IdBelow64(first, channel, at);
      ParseFormatted(m[at].id, p.limit);
      GrownMatchingBefore(first, p.rows, channel, at);
      if at > size { IdBelow64(first, channel, at - size); }
      PullTakes(channel, s, p, m, m[at].id, at, size);
      TakesCollects(m, Pulled(channel, s, p), at, size, n);
    }
  }

  /** What is known after each pull; the end is reached at the latest after as many pulls as there are
      messages. */
  lemma {:induction false} FollowingCollects(channel: string, pulls: seq<Pull>)
    requires pulls != [] && Growing(pulls)
    ensures Collected(Matching(pulls[0].rows, channel, 0), Follow(channel, pulls), |pulls|)
  {
    var before, p := pulls[..|pulls| - 1], pulls[|pulls| - 1];
    if before == [] {
      FirstPull(channel, p);
    } else {
      assert before[0] == pulls[0];
      FollowingCollects(channel, before);
      NextPull(channel, pulls[0].rows, Follow(channel, before), p, |before|);
    }
  }

  function PageSize(limit: int): int { if limit == 0 then 20 else limit }

  lemma IdBelow64(rows: seq<Row>, channel: string, i: nat)
    requires Ascending(rows) && i < |Matching(rows, channel, 0)| && forall k :: 0 <= k < |rows| ==> rows[k].id < LIMIT_64
    ensures 0 < Matching(rows, channel, 0)[i].id < LIMIT_64
  {
    MatchingRows(rows, channel);
    var k :| 0 <= k < |rows| && rows[k] == Matching(rows, channel, 0)[i];
  }

  /** Following the cursors to the end returns every message the channel had at the first pull and no other,
      once and in id order, whatever the limits and whatever is added meanwhile. */
  lemma HistoryIsComplete(channel: string, pulls: seq<Pull>)
    requires pulls != [] && Growing(pulls)
    ensures var end := Follow(channel, pulls);
      end.done ==> end.joined == Matching(pulls[0].rows, channel, 0) && Ascending(end.joined) && forall r :: r in end.joined <==> r in pulls[0].rows && r.channel == channel
    ensures |pulls| >= |Matching(pulls[0].rows, channel, 0)| ==> Follow(channel, pulls).done
  {
    FollowingCollects(channel, pulls);
    MatchingRows(pulls[0].rows, channel);
    forall r ensures r in Matching(pulls[0].rows, channel, 0) <==> r in pulls[0].rows && r.channel == channel {
      MatchingIff(pulls[0].rows, channel, 0, r);
    }
  }
}
