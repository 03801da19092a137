/**
  The cookie store behind the session provider's `setAll` callback.

  The provider hands `setAll` a list of (name, value, options) triples. The
  callback writes each name/value pair into the request's cookie jar (the
  options are dropped there) and each name/(value, options) pair into the
  outgoing response's cookie jar. Both jars are keyed by name, so a later entry
  with the same name overwrites an earlier one.
 */
module Cookies {

  /** Attributes that accompany a cookie the provider asks to set (path,
      lifetime, security flags). They are passed to the response's cookie store
      as given. */
  datatype CookieOptions = CookieOptions(attributes: map<string, string>)

  /** One element of the list handed to `setAll`. */
  datatype CookieToSet = CookieToSet(name: string, value: string, options: CookieOptions)

  /** What a response records for a cookie it sets. */
  datatype SetCookie = SetCookie(value: string, options: CookieOptions)

  /** The request's cookies: name to value. */
  type RequestCookies = map<string, string>

  /** The cookies a response sets: name to value and attributes. */
  type ResponseCookies = map<string, SetCookie>

  /** Some entry of `cs` carries the given name. */
  predicate Mentions(cs: seq<CookieToSet>, name: string) {
    exists i :: 0 <= i < |cs| && cs[i].name == name
  }

  /** `cs[i]` is the last entry of `cs` with its name. */
  predicate IsLastFor(cs: seq<CookieToSet>, i: int) {
    0 <= i < |cs| && forall j :: i < j < |cs| ==> cs[j].name != cs[i].name
  }

  /** Walks `cs` front to back and sets `m[name] := f(entry)` for each entry,
      like a `forEach` that calls a map-backed `set`. */
  function Overwrite<V>(m: map<string, V>, cs: seq<CookieToSet>, f: CookieToSet -> V): map<string, V>
    decreases |cs|
  {
    if |cs| == 0 then m
    else Overwrite(m[cs[0].name := f(cs[0])], cs[1..], f)
  }

  function ValueOf(c: CookieToSet): string {
    c.value
  }

  function SetCookieOf(c: CookieToSet): SetCookie {
    SetCookie(c.value, c.options)
  }

  /** `request.cookies.set(name, value)` for every entry: the options are dropped. */
  function SetOnRequest(jar: RequestCookies, cs: seq<CookieToSet>): RequestCookies {
    Overwrite(jar, cs, ValueOf)
  }

  /** `response.cookies.set(name, value, options)` for every entry. */
  function SetOnResponse(jar: ResponseCookies, cs: seq<CookieToSet>): ResponseCookies {
    Overwrite(jar, cs, SetCookieOf)
  }

  /** A name is mentioned by a non-empty list iff the head or the tail carries it. */
  lemma MentionsUncons(cs: seq<CookieToSet>, name: string)
    requires |cs| > 0
    ensures Mentions(cs, name) <==> cs[0].name == name || Mentions(cs[1..], name)
  {
  }

  /** What the fold computes: the keys are the old keys plus every name in the
      list; a name in the list ends with the image of its LAST entry; every other
      key keeps its old value. */
  lemma {:induction false} OverwriteMeaning<V>(m: map<string, V>, cs: seq<CookieToSet>, f: CookieToSet -> V)
    ensures forall n :: n in Overwrite(m, cs, f) <==> n in m || Mentions(cs, n)
    ensures forall i :: IsLastFor(cs, i) ==>
              cs[i].name in Overwrite(m, cs, f) && Overwrite(m, cs, f)[cs[i].name] == f(cs[i])
    ensures forall n :: n in m && !Mentions(cs, n) ==> n in Overwrite(m, cs, f) && Overwrite(m, cs, f)[n] == m[n]
    decreases |cs|
  {
    if |cs| > 0 {
      var head := cs[0];
      var tail := cs[1..];
      var m' := m[head.name := f(head)];
      OverwriteMeaning(m', tail, f);
      var r := Overwrite(m, cs, f);
      assert r == Overwrite(m', tail, f);
      forall n ensures n in r <==> n in m || Mentions(cs, n) {
        MentionsUncons(cs, n);
      }
      forall i | IsLastFor(cs, i) ensures cs[i].name in r && r[cs[i].name] == f(cs[i]) {
        if i == 0 {
          assert !Mentions(tail, head.name) by {
            forall j | 0 <= j < |tail| ensures tail[j].name != head.name {
              assert tail[j] == cs[j + 1];
            }
          }
        } else {
          assert tail[i - 1] == cs[i];
          assert IsLastFor(tail, i - 1) by {
            forall j | i - 1 < j < |tail| ensures tail[j].name != tail[i - 1].name {
              assert tail[j] == cs[j + 1];
            }
          }
        }
      }
      forall n | n in m && !Mentions(cs, n) ensures n in r && r[n] == m[n] {
        MentionsUncons(cs, n);
      }
    }
  }

  /** Applying two lists one after the other is applying their concatenation. */
  lemma {:induction false} OverwriteAppend<V>(m: map<string, V>, a: seq<CookieToSet>, b: seq<CookieToSet>, f: CookieToSet -> V)
    ensures Overwrite(m, a + b, f) == Overwrite(Overwrite(m, a, f), b, f)
    decreases |a|
  {
    if |a| > 0 {
      assert (a + b)[0] == a[0];
      assert (a + b)[1..] == a[1..] + b;
      OverwriteAppend(m[a[0].name := f(a[0])], a[1..], b, f);
    } else {
      assert a + b == b;
    }
  }

  /** The request side of `setAll`: each listed name ends with the value of its
      last entry, the jar gains exactly the listed names, and cookies whose names
      are not listed keep their values. */
  lemma SetOnRequestMeaning(jar: RequestCookies, cs: seq<CookieToSet>)
    ensures forall n :: n in SetOnRequest(jar, cs) <==> n in jar || Mentions(cs, n)
    ensures forall i :: IsLastFor(cs, i) ==>
              cs[i].name in SetOnRequest(jar, cs) && SetOnRequest(jar, cs)[cs[i].name] == cs[i].value
    ensures forall n :: n in jar && !Mentions(cs, n) ==> SetOnRequest(jar, cs)[n] == jar[n]
  {
    OverwriteMeaning(jar, cs, ValueOf);
  }

  /** The response side of `setAll` on a fresh response: it sets exactly the
      listed names, each to the value and options of its last entry. */
  lemma SetOnFreshResponseMeaning(cs: seq<CookieToSet>)
    ensures forall n :: n in SetOnResponse(map[], cs) <==> Mentions(cs, n)
    ensures forall i :: IsLastFor(cs, i) ==>
              cs[i].name in SetOnResponse(map[], cs) &&
              SetOnResponse(map[], cs)[cs[i].name] == SetCookie(cs[i].value, cs[i].options)
  {
    OverwriteMeaning(map[], cs, SetCookieOf);
  }
}
