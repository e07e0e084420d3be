/** The sorted set as Redis holds it: text members of the form "name:amount" with a score. The names
    keep equal amounts apart, and the text decodes to exactly the window it stands for. */
module Members {
  import opened Domain
  import opened Sums
  import opened Window

  // --- Text -------------------------------------------------------------------

  function Digit(d: nat): char
    requires d < 10
  {
    ('0' as int + d) as char
  }

  function Digits(n: nat): string {
    if n < 10 then [Digit(n)] else Digits(n / 10) + [Digit(n % 10)]
  }

  function ParseNat(s: string): Option<nat> {
    if s == "" || !('0' <= s[|s| - 1] <= '9') then None
    else
      var d := s[|s| - 1] as int - '0' as int;
      if |s| == 1 then Some(d)
      else match ParseNat(s[..|s| - 1]) case None => None case Some(p) => Some(10 * p + d)
  }

  lemma {:induction false} DigitsParse(n: nat)
    ensures ParseNat(Digits(n)) == Some(n) && ':' !in Digits(n) && Digits(n) != ""
  {
    if n >= 10 {
      DigitsParse(n / 10);
      var s := Digits(n / 10) + [Digit(n % 10)];
      assert s[..|s| - 1] == Digits(n / 10);
    }
  }

  function SplitAll(s: string): (parts: seq<string>)
    ensures |parts| > 0
  {
    if s == "" then [""]
    else
      var rest := SplitAll(s[1..]);
      if s[0] == ':' then [""] + rest else [[s[0]] + rest[0]] + rest[1..]
  }

  function DropTrailingEmpty(parts: seq<string>): seq<string> {
    if parts != [] && parts[|parts| - 1] == "" then DropTrailingEmpty(parts[..|parts| - 1]) else parts
  }

  // Splitting on ':' discards trailing empty parts.
  function Split(s: string): seq<string> { DropTrailingEmpty(SplitAll(s)) }

  lemma {:induction false} SplitPlain(s: string)
    requires ':' !in s
    ensures SplitAll(s) == [s]
  {
    if s != "" {
      SplitPlain(s[1..]);
      assert s == [s[0]] + s[1..];
    }
  }

  lemma {:induction false} SplitJoin(name: string, rest: string)
    requires ':' !in name
    ensures SplitAll(name + ":" + rest) == [name] + SplitAll(rest)
  {
    var s := name + ":" + rest;
    if name == "" {
      assert s[1..] == rest;
    } else {
      assert s[1..] == name[1..] + ":" + rest;
      SplitJoin(name[1..], rest);
      assert name == [name[0]] + name[1..];
    }
  }

  function Member(name: string, amount: nat): string { name + ":" + Digits(amount) }

  // What one member adds to the sum: nothing unless it has two parts; None if the amount is unreadable.
  function AmountIn(member: string): Option<nat> {
    var parts := Split(member);
    if |parts| == 2 then ParseNat(parts[1]) else Some(0)
  }

  lemma MemberDecodes(name: string, amount: nat)
    requires ':' !in name
    ensures Split(Member(name, amount)) == [name, Digits(amount)]
    ensures AmountIn(Member(name, amount)) == Some(amount)
  {
    DigitsParse(amount);
    SplitJoin(name, Digits(amount));
    SplitPlain(Digits(amount));
  }

  // Text without a colon, or with parts between two of them, adds nothing; an unreadable amount is an error.
  lemma OtherMembers(x: string, y: string, z: string)
    requires ':' !in x && ':' !in y && ':' !in z && z != ""
    ensures AmountIn(x) == Some(0)
    ensures AmountIn(x + ":" + y + ":" + z) == Some(0)
    ensures AmountIn(x + ":" + z) == ParseNat(z)
  {
    SplitPlain(x);
    SplitPlain(z);
    SplitJoin(x, z);
    SplitJoin(y, z);
    SplitJoin(x, y + ":" + z);
    assert x + ":" + y + ":" + z == x + ":" + (y + ":" + z);
  }

  lemma MemberInjective(n: string, v: nat, m: string, w: nat)
    requires ':' !in n && ':' !in m && Member(n, v) == Member(m, w)
    ensures n == m && v == w
  {
    MemberDecodes(n, v);
    MemberDecodes(m, w);
  }

  // --- The set ------------------------------------------------------------------

  type ZSet = map<string, int>

  const SEED_NAME: string := "INITIAL_HISTORICAL_SUM"

  // Removes the scores from 0, inclusive, to `start`, exclusive.
  function RemoveRange(z: ZSet, start: int): ZSet { map m | m in z && !(0 <= z[m] < start) :: z[m] }

  predicate Readable(z: ZSet) { forall m | m in z :: AmountIn(m).Some? }

  function Amounts(z: ZSet): map<string, nat>
    requires Readable(z)
  {
    map m | m in z :: AmountIn(m).value
  }

  ghost function SumOf(z: ZSet): nat
    requires Readable(z)
  {
    MapSum(Amounts(z))
  }

  // --- The window a set stands for --------------------------------------------------

  ghost predicate GoodNames(names: seq<string>) {
    && (forall i | 0 <= i < |names| :: ':' !in names[i] && names[i] != SEED_NAME)
    && (forall i, j | 0 <= i < j < |names| :: names[i] != names[j])
  }

  function Encode(w: Window, names: seq<string>): ZSet
    requires |names| == |w.live|
    decreases |w.live|
  {
    if w.live == [] then
      if w.marker.None? then map[] else map[Member(SEED_NAME, w.marker.value.amount) := w.marker.value.score]
    else
      var n := |w.live| - 1;
      var u := w.live[n];
      Encode(Window(w.marker, w.live[..n]), names[..n])[Member(names[n], u.amount) := u.createdAt]
  }

  lemma SeedNamePlain()
    ensures ':' !in SEED_NAME
  {
  }

  lemma {:induction false} EncodeMembers(w: Window, names: seq<string>, m: string)
    requires |names| == |w.live| && m in Encode(w, names)
    ensures (w.marker.Some? && m == Member(SEED_NAME, w.marker.value.amount))
            || exists i :: 0 <= i < |names| && m == Member(names[i], w.live[i].amount)
    decreases |w.live|
  {
    if w.live != [] {
      var n := |w.live| - 1;
      if m != Member(names[n], w.live[n].amount) {
        EncodeMembers(Window(w.marker, w.live[..n]), names[..n], m);
      }
    }
  }

  lemma NewMember(w: Window, names: seq<string>, name: string, amount: nat)
    requires |names| == |w.live| && GoodNames(names + [name])
    ensures Member(name, amount) !in Encode(w, names)
  {
    var m := Member(name, amount);
    var all := names + [name];
    assert all[|names|] == name && forall i | 0 <= i < |names| :: all[i] == names[i];
    if m in Encode(w, names) {
      EncodeMembers(w, names, m);
      SeedNamePlain();
      if i :| 0 <= i < |names| && m == Member(names[i], w.live[i].amount) {
        MemberInjective(name, amount, names[i], w.live[i].amount);
      } else {
        MemberInjective(name, amount, SEED_NAME, w.marker.value.amount);
      }
    }
  }

  // Equal amounts with equal scores stay apart: the text sums to the window's volume, entry by entry.
  lemma {:induction false} EncodeSums(w: Window, names: seq<string>)
    requires |names| == |w.live| && GoodNames(names)
    ensures Readable(Encode(w, names))
    ensures SumOf(Encode(w, names)) == w.Volume() && |Encode(w, names)| == w.Size()
    decreases |w.live|
  {
    if w.live == [] {
      if w.marker.Some? {
        SeedNamePlain();
        MemberDecodes(SEED_NAME, w.marker.value.amount);
        SumOfAdd(map[], Member(SEED_NAME, w.marker.value.amount), w.marker.value.score);
      }
    } else {
      var n := |w.live| - 1;
      var rest := Window(w.marker, w.live[..n]);
      EncodeSums(rest, names[..n]);
      assert names == names[..n] + [names[n]];
      NewMember(rest, names[..n], names[n], w.live[n].amount);
      MemberDecodes(names[n], w.live[n].amount);
      SumOfAdd(Encode(rest, names[..n]), Member(names[n], w.live[n].amount), w.live[n].createdAt);
    }
  }

  lemma SumOfAdd(z: ZSet, m: string, score: int)
    requires Readable(z) && m !in z && AmountIn(m).Some?
    ensures Readable(z[m := score]) && |z[m := score]| == |z| + 1
    ensures SumOf(z[m := score]) == SumOf(z) + AmountIn(m).value
  {
    hide AmountIn, MapSum;
    assert Amounts(z[m := score]) == Amounts(z)[m := AmountIn(m).value];
    MapSumAdd(Amounts(z), m, AmountIn(m).value);
    assert z[m := score] - {m} == z;
    CardRemove(z[m := score], m);
  }

  lemma EncodeAdd(w: Window, names: seq<string>, tx: Tx, name: string)
    requires |names| == |w.live|
    ensures Encode(w.Add(tx), names + [name]) == Encode(w, names)[Member(name, tx.amount) := tx.createdAt]
  {
    var v, all := w.Add(tx), names + [name];
    assert v.live[..|w.live|] == w.live && all[..|names|] == names;
  }

  // The names of the entries a trim keeps.
  function KeptNames(q: seq<Tx>, names: seq<string>, start: int): seq<string>
    requires |names| == |q|
  {
    if q == [] then []
    else
      var n := |q| - 1;
      var rest := KeptNames(q[..n], names[..n], start);
      if q[n].createdAt < start then rest else rest + [names[n]]
  }

  lemma {:induction false} KeptNamesFacts(q: seq<Tx>, names: seq<string>, start: int)
    requires |names| == |q| && GoodNames(names)
    ensures |KeptNames(q, names, start)| == |Kept(q, start)|
    ensures GoodNames(KeptNames(q, names, start))
    ensures forall x | x in KeptNames(q, names, start) :: x in names
  {
    if q != [] {
      var n := |q| - 1;
      KeptNamesFacts(q[..n], names[..n], start);
      var rest := KeptNames(q[..n], names[..n], start);
      forall i | 0 <= i < |rest| ensures rest[i] != names[n] {
        assert rest[i] in names[..n];
      }
    }
  }

  // Trimming the text trims the window.
  lemma {:induction false} EncodeTrim(w: Window, names: seq<string>, start: int)
    requires |names| == |w.live| && GoodNames(names)
    requires w.marker.Some? ==> 0 <= w.marker.value.score
    ensures |KeptNames(w.live, names, start)| == |w.Trim(start).live|
    ensures RemoveRange(Encode(w, names), start) == Encode(w.Trim(start), KeptNames(w.live, names, start))
    decreases |w.live|
  {
    KeptNamesFacts(w.live, names, start);
    if w.live != [] {
      var n := |w.live| - 1;
      var rest := Window(w.marker, w.live[..n]);
      EncodeTrim(rest, names[..n], start);
      assert names == names[..n] + [names[n]];
      NewMember(rest, names[..n], names[n], w.live[n].amount);
      var u, m := w.live[n], Member(names[n], w.live[n].amount);
      RemoveRangeAdd(Encode(rest, names[..n]), m, u.createdAt, start);
      if start <= u.createdAt {
        EncodeAdd(rest.Trim(start), KeptNames(rest.live, names[..n], start), u, names[n]);
      }
    }
  }

  lemma RemoveRangeAdd(z: ZSet, m: string, score: nat, start: int)
    requires m !in z
    ensures RemoveRange(z[m := score], start) ==
            if score < start then RemoveRange(z, start) else RemoveRange(z, start)[m := score]
  {
  }
}
