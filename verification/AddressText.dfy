/** The evaluator's own reader of IPv4 text: one pass over the characters,
    proved against the pieces between the dots. */
module AddressText {
  import opened Basics
  import opened DecimalText

  /** An IP address as its bytes. */
  type Address = seq<int>

  /** The text cut at its dots. */
  function Pieces(s: string): (ps: seq<string>)
    ensures ps != []
  {
    if s == [] then [""]
    else
      var c, front := s[|s| - 1], Pieces(s[..|s| - 1]);
      if c == '.' then front + [""]
      else front[..|front| - 1] + [front[|front| - 1] + [c]]
  }

  /** At most three digits, worth at most a byte. */
  predicate SmallNumber(s: string) {
    |s| <= 3 && AllDigits(s) && Number(s) <= 255
  }

  /** Up to four small numbers, of which only the last may be missing. */
  predicate Dotted(ps: seq<string>) {
    && 1 <= |ps| <= 4
    && (forall i :: 0 <= i < |ps| ==> SmallNumber(ps[i]))
    && (forall i :: 0 <= i < |ps| - 1 ==> ps[i] != "")
  }

  predicate IsQuad(ps: seq<string>) {
    Dotted(ps) && |ps| == 4 && ps[3] != ""
  }

  /** An IPv4 address inside IPv6. */
  function Mapped(a: int, b: int, c: int, d: int): Address {
    [0, 0, 0, 0, 0, 0, 0, 0, 0, 0, 255, 255, a, b, c, d]
  }

  /** A dotted quad is its four numbers. Text that only lacks numbers goes to
      the library, and any other text is refused. */
  function ReadIp(parseIp: string -> Option<Address>, s: string): Option<Address> {
    var ps := Pieces(s);
    if IsQuad(ps) then Some(Mapped(Number(ps[0]), Number(ps[1]), Number(ps[2]), Number(ps[3])))
    else if Dotted(ps) then parseIp(s)
    else None
  }

  lemma SmallPrefix(s: string)
    requires s != [] && SmallNumber(s)
    ensures SmallNumber(s[..|s| - 1])
  {
    var front := s[..|s| - 1];
    assert forall i :: 0 <= i < |front| ==> front[i] == s[i];
  }

  /** Without its last character, the last piece is shorter or gone. */
  lemma LastPiece(s: string)
    requires s != [] && s[|s| - 1] != '.'
    ensures var ps, front := Pieces(s), Pieces(s[..|s| - 1]);
      && |ps| == |front| && ps[|ps| - 1] != "" && front[|ps| - 1] == ps[|ps| - 1][..|ps[|ps| - 1]| - 1]
      && forall i :: 0 <= i < |ps| - 1 ==> front[i] == ps[i]
  {
    var front := Pieces(s[..|s| - 1]);
    var last := front[|front| - 1];
    assert Pieces(s) == front[..|front| - 1] + [last + [s[|s| - 1]]];
    assert (last + [s[|s| - 1]])[..|last|] == last;
  }

  lemma FewerPieces(ps: seq<string>)
    requires Dotted(ps + [""]) && ps != []
    ensures Dotted(ps)
  {
    hide SmallNumber;
    var more := ps + [""];
    assert forall i :: 0 <= i < |ps| ==> more[i] == ps[i];
  }

  lemma ShorterPiece(ps: seq<string>, front: seq<string>)
    requires Dotted(ps) && |front| == |ps| && SmallNumber(front[|ps| - 1])
    requires forall i :: 0 <= i < |ps| - 1 ==> front[i] == ps[i]
    ensures Dotted(front)
  {
    hide SmallNumber;
  }

  lemma PrefixStep(s: string)
    requires s != [] && Dotted(Pieces(s))
    ensures Dotted(Pieces(s[..|s| - 1]))
  {
    hide SmallNumber;
    hide Dotted;
    var ps, front := Pieces(s), Pieces(s[..|s| - 1]);
    if s[|s| - 1] == '.' {
      FewerPieces(front);
    } else {
      LastPiece(s);
      LastIsSmall(ps);
      SmallPrefix(ps[|ps| - 1]);
      ShorterPiece(ps, front);
    }
  }

  lemma LastIsSmall(ps: seq<string>)
    requires Dotted(ps)
    ensures SmallNumber(ps[|ps| - 1])
  {
  }

  /** What is refused stays refused however the text goes on. */
  lemma {:induction false} PrefixDotted(s: string, i: nat)
    requires i <= |s| && Dotted(Pieces(s))
    ensures Dotted(Pieces(s[..i]))
    decreases |s|
  {
    if i == |s| {
      assert s[..i] == s;
    } else {
      PrefixStep(s);
      assert s[..|s| - 1][..i] == s[..i];
      PrefixDotted(s[..|s| - 1], i);
    }
  }

  /** Text with a character that is neither digit nor dot is refused. */
  lemma StrangeRefused(parseIp: string -> Option<Address>, s: string, i: nat)
    requires i < |s| && !IsDigit(s[i]) && s[i] != '.'
    ensures ReadIp(parseIp, s) == None
  {
    if Dotted(Pieces(s)) {
      PrefixDotted(s, i + 1);
      StrangePiece(s[..i + 1]);
    }
  }

  lemma StrangePiece(s: string)
    requires s != [] && !IsDigit(s[|s| - 1]) && s[|s| - 1] != '.'
    ensures !Dotted(Pieces(s))
  {
    var ps := Pieces(s);
    var last := ps[|ps| - 1];
    assert last[|last| - 1] == s[|s| - 1];
  }

  /** The state of the pass: numbers closed by a dot, and the open one. */
  ghost predicate Reading(ps: seq<string>, parts: seq<int>, value: int, digits: nat) {
    && Dotted(ps) && |parts| == |ps| - 1
    && (forall i :: 0 <= i < |parts| ==> parts[i] == Number(ps[i]))
    && value == Number(ps[|ps| - 1]) && digits == |ps[|ps| - 1]|
  }

  lemma ReadDigit(s: string, parts: seq<int>, value: int, digits: nat, c: char)
    requires Reading(Pieces(s), parts, value, digits) && IsDigit(c)
    ensures var v := value * 10 + (c as int - '0' as int);
      if v > 255 || digits + 1 > 3 then !Dotted(Pieces(s + [c]))
      else Reading(Pieces(s + [c]), parts, v, digits + 1)
  {
    var ps, more := Pieces(s), Pieces(s + [c]);
    var k := |ps| - 1;
    assert (s + [c])[..|s|] == s;
    assert more == ps[..k] + [ps[k] + [c]];
    assert (ps[k] + [c])[..|ps[k]|] == ps[k];
    assert more[k] == ps[k] + [c] && forall i :: 0 <= i < k ==> more[i] == ps[i];
    assert Number(more[k]) == value * 10 + (c as int - '0' as int);
  }

  lemma ReadDot(s: string, parts: seq<int>, value: int, digits: nat)
    requires Reading(Pieces(s), parts, value, digits)
    ensures if digits == 0 || |parts| >= 3 then !Dotted(Pieces(s + ['.']))
            else Reading(Pieces(s + ['.']), parts + [value], 0, 0)
  {
    var ps, more := Pieces(s), Pieces(s + ['.']);
    assert (s + ['.'])[..|s|] == s;
    assert more == ps + [""];
    if digits == 0 { assert more[|ps| - 1] == ""; }
  }

  method ParseIPv4Fast(parseIp: string -> Option<Address>, s: string) returns (r: Option<Address>)
    ensures r == ReadIp(parseIp, s)
  {
    hide Pieces;
    hide Dotted;
    var parts: seq<int> := [];
    var value, digits := 0, 0;
    var i := 0;
    Nothing();
    assert s[..0] == "";
    while i < |s|
      invariant 0 <= i <= |s|
      invariant Reading(Pieces(s[..i]), parts, value, digits)
    {
      var c := s[i];
      assert s[..i + 1] == s[..i] + [c];
      if Dotted(Pieces(s)) { PrefixDotted(s, i + 1); }
      if IsDigit(c) {
        ReadDigit(s[..i], parts, value, digits, c);
        value := value * 10 + (c as int - '0' as int);
        digits := digits + 1;
        if value > 255 || digits > 3 { return None; }
      } else if c == '.' {
        ReadDot(s[..i], parts, value, digits);
        if digits == 0 || |parts| >= 3 { return None; }
        parts := parts + [value];
        value, digits := 0, 0;
      } else {
        StrangePiece(s[..i + 1]);
        return None;
      }
      i := i + 1;
    }
    assert s[..i] == s;
    if |parts| != 3 || digits == 0 { return parseIp(s); }
    r := Some(Mapped(parts[0], parts[1], parts[2], value));
  }

  lemma Nothing()
    ensures Reading(Pieces(""), [], 0, 0)
  {
  }

  /** A quad read is the sixteen bytes of an IPv4 address, its numbers last and in
      their order. */
  lemma QuadBytes(parseIp: string -> Option<Address>, s: string)
    requires IsQuad(Pieces(s))
    ensures var r := ReadIp(parseIp, s);
      && r.Some? && |r.value| == 16
      && (forall i :: 0 <= i < 10 ==> r.value[i] == 0) && r.value[10] == 255 && r.value[11] == 255
      && (forall i :: 0 <= i < 4 ==> r.value[12 + i] == Number(Pieces(s)[i]))
  {
  }
}
