/** The cart token: the cart cookie's value, one product id per unit, separated by commas. */
module Token {
  import opened Wrappers
  import opened Tally

  /** JavaScript's `token.split(',')`: the pieces between commas, empty ones included.
      Even the empty string yields one (empty) piece. */
  function Split(s: string): (segments: seq<string>)
    ensures |segments| >= 1
    ensures forall i :: 0 <= i < |segments| ==> ',' !in segments[i]
  {
    if s == [] then [""]
    else
      var rest := Split(s[1..]);
      if s[0] == ',' then [""] + rest
      else [[s[0]] + rest[0]] + rest[1..]
  }

  /** JavaScript's `segments.join(',')`: one comma between neighbouring pieces. */
  function Join(segments: seq<string>): (token: string)
    ensures |segments| >= 1 && (forall i :: 0 <= i < |segments| ==> ',' !in segments[i]) ==>
      Count(token, ',') == |segments| - 1
  {
    if segments == [] then ""
    else if |segments| == 1 then
      CountPositive(segments[0], ',');
      segments[0]
    else
      var rest := Join(segments[1..]);
      CountConcat(segments[0] + ",", rest, ',');
      CountConcat(segments[0], ",", ',');
      CountPositive(segments[0], ',');
      assert Count(",", ',') == 1 by {
        assert ","[..0] == [];
      }
      segments[0] + "," + rest
  }

  /** Joining the pieces of a split gives back the token, duplicates and empty pieces included. */
  lemma {:induction false} JoinSplit(s: string)
    ensures Join(Split(s)) == s
  {
    if s != [] {
      var rest := Split(s[1..]);
      JoinSplit(s[1..]);
      if s[0] == ',' {
        assert Split(s)[1..] == rest;
      } else {
        var segs := Split(s);
        if |rest| > 1 {
          assert segs[1..] == rest[1..];
          assert Join(rest) == rest[0] + "," + Join(rest[1..]);
        }
      }
    }
  }

  lemma {:induction false} SplitSingle(a: string)
    requires ',' !in a
    ensures Split(a) == [a]
  {
    if a != [] {
      SplitSingle(a[1..]);
      assert a[0] != ',' && a == [a[0]] + a[1..];
    }
  }

  lemma {:induction false} SplitPrefix(a: string, b: string)
    requires ',' !in a
    ensures Split(a + "," + b) == [a] + Split(b)
  {
    if a == [] {
      assert (a + "," + b)[1..] == b;
    } else {
      var t := a + "," + b;
      assert t[0] == a[0] != ',' && t[1..] == a[1..] + "," + b;
      SplitPrefix(a[1..], b);
      assert a == [a[0]] + a[1..];
    }
  }

  /** Splitting a join of comma-free pieces gives back the pieces. */
  lemma {:induction false} SplitJoin(segments: seq<string>)
    requires |segments| >= 1
    requires forall i :: 0 <= i < |segments| ==> ',' !in segments[i]
    ensures Split(Join(segments)) == segments
  {
    if |segments| == 1 {
      SplitSingle(segments[0]);
    } else {
      SplitJoin(segments[1..]);
      SplitPrefix(segments[0], Join(segments[1..]));
    }
  }

  /** A token has one more piece than it has commas. */
  lemma {:induction false} SplitLength(s: string)
    ensures |Split(s)| == Count(s, ',') + 1
  {
    if s != [] {
      SplitLength(s[1..]);
      CountCons(s[0], s[1..], ',');
      assert s == [s[0]] + s[1..];
    }
  }

  /** JavaScript truthiness of the cookie: an unset cookie and the empty string are both
      treated as "no cart". A set cookie is present exactly when its split is more than the
      one empty piece. */
  predicate Present(cookie: Option<string>)
    ensures Present(cookie) <==> cookie.Some? && Split(cookie.value) != [""]
  {
    if cookie.Some? then
      JoinSplit(cookie.value);
      cookie.value != ""
    else false
  }
}
