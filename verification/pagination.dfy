/**
 * The pagination of the REST API's list endpoints
 * (`packages/rest-api/src/server/guild/guild.controller.ts` `getAll` and
 * `getAllPrefixes`, `packages/rest-api/src/server/queue/queue.controller.ts`
 * `getAll`): the query parameters `limit`, `skip` and `max` become the
 * numbers handed to `find().limit(l).skip(s)`.
 *
 * The two controllers apply the `||` defaults at different times: the guild
 * controller after `max` has replaced the limit by the document count, the
 * queue controller before. The numbers differ only for `max=true` over an
 * empty collection.
 *
 * `parseInt` yields `NaN` (here `None`) when there is no digit; an absent
 * parameter is `undefined`, which `parseInt` reads as the text `undefined`.
 */
module Pagination {
  import opened Wrappers
  import opened Text

  /** The query string parameters; `None` when the parameter is absent. */
  datatype Query = Query(limit: Option<string>, skip: Option<string>, max: Option<string>)

  /** The two numbers handed to `limit` and `skip`. */
  datatype Window = Window(limit: int, skip: int)

  /** `parseInt(param, 10)`, `NaN` being `None`. */
  function ParseParam(param: Option<string>): (r: Option<int>)
    ensures param.None? ==> r.None?
  {
    var text := param.GetOr("undefined");
    assert param.None? ==> DigitPrefix(SignAndBody(text).1) == [] by {
      if param.None? {
        assert SignAndBody(text) == (false, text);
      }
    }
    ParseInt(text)
  }

  /** `n || d` on a number that may be `NaN`: both `NaN` and `0` are falsy. */
  function OrElse(n: Option<int>, d: int): int {
    if n.Some? && n.value != 0 then n.value else d
  }

  /** `req.query['max'] === 'true'`. */
  predicate IsMax(q: Query) {
    q.max == Some("true")
  }

  /**
   * The guild controller's window: with `max`, the document count (or 100
   * when the count is 0) from the start; otherwise the parsed numbers, a
   * missing or zero limit being 100 and a missing skip 0.
   */
  function GuildWindow(q: Query, count: nat): (w: Window)
    ensures IsMax(q) ==> w == Window(if count == 0 then 100 else count, 0)
    ensures !IsMax(q) ==> w == Window(OrElse(ParseParam(q.limit), 100), OrElse(ParseParam(q.skip), 0))
  {
    if IsMax(q) then Window(OrElse(Some(count), 100), OrElse(Some(0), 0))
    else Window(OrElse(ParseParam(q.limit), 100), OrElse(ParseParam(q.skip), 0))
  }

  /** The queue controller's window: the same defaults, but `max` takes the count as it is. */
  function QueueWindow(q: Query, count: nat): (w: Window)
    ensures IsMax(q) ==> w == Window(count, 0)
    ensures !IsMax(q) ==> w == Window(OrElse(ParseParam(q.limit), 100), OrElse(ParseParam(q.skip), 0))
  {
    var limit := OrElse(ParseParam(q.limit), 100);
    var skip := OrElse(ParseParam(q.skip), 0);
    if IsMax(q) then Window(count, 0) else Window(limit, skip)
  }

  /** The two controllers pick the same window except for `max` over an empty collection. */
  lemma WindowsAgree(q: Query, count: nat)
    ensures GuildWindow(q, count) == QueueWindow(q, count) <==> !(IsMax(q) && count == 0)
    ensures IsMax(q) && count == 0 ==> GuildWindow(q, count).limit == 100 && QueueWindow(q, count).limit == 0
  {
  }

  /** With no parameter at all, at most 100 documents from the first on. */
  lemma DefaultWindow(count: nat)
    ensures GuildWindow(Query(None, None, None), count) == Window(100, 0)
    ensures QueueWindow(Query(None, None, None), count) == Window(100, 0)
  {
    assert ParseParam(None).None?;
  }

  /** Written-out numbers are read back, a zero limit standing for the default 100. */
  lemma WindowOfNumbers(limit: nat, skip: nat, count: nat)
    ensures GuildWindow(Query(Some(NatToString(limit)), Some(NatToString(skip)), None), count)
         == Window(if limit == 0 then 100 else limit, skip)
    ensures QueueWindow(Query(Some(NatToString(limit)), Some(NatToString(skip)), None), count)
         == Window(if limit == 0 then 100 else limit, skip)
  {
    ParseIntRoundTrip(limit);
    ParseIntRoundTrip(skip);
  }

  /**
   * The documents a window selects, as MongoDB computes them: `skip` is
   * applied before `limit` whatever the order of the calls, a limit of 0
   * means no limit and a negative limit counts as its absolute value; a
   * negative skip is refused (`None`).
   */
  function Page<T>(docs: seq<T>, w: Window): (r: Option<seq<T>>)
    ensures r.None? <==> w.skip < 0
    ensures r.Some? && w.skip >= |docs| ==> r.value == []
    ensures r.Some? && w.skip < |docs| && (w.limit == 0 || |docs| - w.skip <= Abs(w.limit)) ==> r.value == docs[w.skip..]
    ensures r.Some? && w.limit != 0 && w.skip + Abs(w.limit) < |docs| ==> r.value == docs[w.skip..w.skip + Abs(w.limit)]
  {
    if w.skip < 0 then None
    else
      var rest := if w.skip <= |docs| then docs[w.skip..] else [];
      var n := Abs(w.limit);
      if n == 0 || n >= |rest| then Some(rest) else Some(rest[..n])
  }

  function Abs(n: int): nat {
    if n < 0 then -n else n
  }

  /** With `max=true` and an exact count, both controllers return every document, in order. */
  lemma MaxIsEverything<T>(docs: seq<T>, q: Query)
    requires IsMax(q)
    ensures Page(docs, GuildWindow(q, |docs|)) == Some(docs)
    ensures Page(docs, QueueWindow(q, |docs|)) == Some(docs)
  {
    assert docs[0..] == docs;
  }

  /** Without parameters, the first hundred documents. */
  lemma DefaultPage<T>(docs: seq<T>, count: nat)
    ensures Page(docs, GuildWindow(Query(None, None, None), count)) == Some(if |docs| <= 100 then docs else docs[..100])
  {
    DefaultWindow(count);
    assert docs[0..] == docs;
  }
}
