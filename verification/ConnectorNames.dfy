/** Versioned connector names: `base.NNN`, as parsed and incremented by
    src/self_healthy_kafka/healing/offset_recovery.py.  Names are strings over
    one line of text; digits are the ASCII digits. */
module ConnectorNames {

  predicate IsDigit(c: char) {
    '0' <= c <= '9'
  }

  predicate AllDigits(s: string) {
    forall i | 0 <= i < |s| :: IsDigit(s[i])
  }

  /** The number of digits at the end of `s`. */
  function TrailingDigits(s: string): (k: nat)
    ensures k <= |s|
  {
    if s == "" || !IsDigit(s[|s| - 1]) then 0 else TrailingDigits(s[..|s| - 1]) + 1
  }

  lemma {:induction false} TrailingAreDigits(s: string)
    ensures AllDigits(s[|s| - TrailingDigits(s)..])
  {
    if s != "" && IsDigit(s[|s| - 1]) {
      var front := s[..|s| - 1];
      TrailingAreDigits(front);
      assert s[|s| - TrailingDigits(s)..] == front[|front| - TrailingDigits(front)..] + [s[|s| - 1]];
    }
  }

  lemma {:induction false} TrailingAfterDot(front: string, digits: string)
    requires AllDigits(digits)
    ensures TrailingDigits(front + "." + digits) == |digits|
  {
    var s := front + "." + digits;
    if digits == "" {
      assert s[|s| - 1] == '.';
    } else {
      assert s[|s| - 1] == digits[|digits| - 1];
      assert s[..|s| - 1] == front + "." + digits[..|digits| - 1];
      TrailingAfterDot(front, digits[..|digits| - 1]);
    }
  }

  /** A name is versioned when a dot separates a non-empty base from a
      non-empty run of digits that ends the name. */
  predicate IsVersioned(name: string) {
    var k := TrailingDigits(name);
    k > 0 && |name| > k + 1 && name[|name| - k - 1] == '.'
  }

  function Base(name: string): string {
    if IsVersioned(name) then name[..|name| - TrailingDigits(name) - 1] else name
  }

  function VersionDigits(name: string): (digits: string)
    requires IsVersioned(name)
    ensures digits != "" && AllDigits(digits)
    ensures name == Base(name) + "." + digits
  {
    TrailingAreDigits(name);
    name[|name| - TrailingDigits(name)..]
  }

  function ParseDigits(s: string): nat
    requires AllDigits(s)
  {
    if s == "" then 0 else 10 * ParseDigits(s[..|s| - 1]) + (s[|s| - 1] as int - '0' as int)
  }

  function PrintDigits(n: nat): (s: string)
    ensures s != "" && AllDigits(s) && ParseDigits(s) == n
  {
    var last := [(n % 10) as char + '0'];
    if n < 10 then last
    else
      var front := PrintDigits(n / 10);
      assert (front + last)[..|front|] == front;
      front + last
  }

  /** Zero-padding on the left up to `width`, as the format `0{width}d` does. */
  function ZeroPad(s: string, width: nat): (r: string)
    requires s != "" && AllDigits(s)
    ensures r != "" && AllDigits(r) && ParseDigits(r) == ParseDigits(s)
    ensures |r| == if |s| < width then width else |s|
    decreases width - |s|
  {
    if |s| >= width then s
    else
      LeadingZero(s);
      ZeroPad("0" + s, width)
  }

  lemma {:induction false} LeadingZero(s: string)
    requires AllDigits(s)
    ensures AllDigits("0" + s) && ParseDigits("0" + s) == ParseDigits(s)
  {
    assert ("0" + s)[..|s|] == if s == "" then "" else "0" + s[..|s| - 1];
    if s != "" {
      LeadingZero(s[..|s| - 1]);
    }
  }

  /** The version number of a name; an unversioned name counts as version 0. */
  function Sequence(name: string): nat {
    if IsVersioned(name) then ParseDigits(VersionDigits(name)) else 0
  }

  function Next(name: string): string {
    if !IsVersioned(name) then name + ".001"
    else
      var digits := VersionDigits(name);
      Base(name) + "." + ZeroPad(PrintDigits(ParseDigits(digits) + 1), |digits|)
  }

  /** Printing a base and a run of digits and parsing the result gives both back. */
  lemma SplitJoin(base: string, digits: string)
    requires base != "" && digits != "" && AllDigits(digits)
    ensures var name := base + "." + digits;
            IsVersioned(name) && Base(name) == base && VersionDigits(name) == digits
  {
    var name := base + "." + digits;
    TrailingAfterDot(base, digits);
    assert name[..|base|] == base && name[|base| + 1..] == digits;
  }

  lemma NextOfVersioned(name: string)
    requires IsVersioned(name)
    ensures IsVersioned(Next(name)) && Base(Next(name)) == Base(name)
    ensures ParseDigits(VersionDigits(Next(name))) == ParseDigits(VersionDigits(name)) + 1
  {
    var digits := VersionDigits(name);
    SplitJoin(Base(name), ZeroPad(PrintDigits(ParseDigits(digits) + 1), |digits|));
  }

  lemma FirstVersion(name: string)
    requires !IsVersioned(name)
    ensures name != "" ==> IsVersioned(Next(name)) && Base(Next(name)) == name
    ensures name != "" ==> VersionDigits(Next(name)) == "001"
    ensures name == "" ==> Base(Next(name)) == ".001"
  {
    assert name + ".001" == name + "." + "001";
    if name == "" {
      TrailingAfterDot("", "001");
    } else {
      SplitJoin(name, "001");
    }
  }

  lemma FirstVersionIsOne()
    ensures ParseDigits("001") == 1
  {
    assert "0" + "01" == "001" && "0" + "1" == "01" && "1"[..0] == "";
    LeadingZero("01");
    LeadingZero("1");
  }

  /** The successor of a name has the same base and the next version number,
      through the zero-padded print and the parse; the empty name is the only
      one whose base is lost. */
  lemma NextVersion(name: string)
    ensures name != "" ==> IsVersioned(Next(name)) && Sequence(Next(name)) == Sequence(name) + 1
    ensures Base(Next(name)) == Base(name) <==> name != ""
  {
    if IsVersioned(name) {
      NextOfVersioned(name);
    } else {
      FirstVersion(name);
      FirstVersionIsOne();
    }
  }

  function Successor(name: string, steps: nat): string {
    if steps == 0 then name else Next(Successor(name, steps - 1))
  }

  lemma {:induction false} SuccessorSequence(name: string, steps: nat)
    requires name != ""
    ensures Successor(name, steps) != ""
    ensures Base(Successor(name, steps)) == Base(name)
    ensures Sequence(Successor(name, steps)) == Sequence(name) + steps
  {
    hide Base, Sequence, Next, IsVersioned;
    if steps > 0 {
      SuccessorSequence(name, steps - 1);
      NextVersion(Successor(name, steps - 1));
    }
  }

  /** Repeated replacement never returns to a name already used. */
  lemma SuccessorsDistinct(name: string, i: nat, j: nat)
    requires name != ""
    ensures Successor(name, i) == Successor(name, j) <==> i == j
  {
    SuccessorSequence(name, i);
    SuccessorSequence(name, j);
  }
}
