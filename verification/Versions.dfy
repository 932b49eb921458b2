/** The version order of `isVersionOlder` and the shape accepted by `semverLike`
    (modules/runtime/api.go). */
module Versions {
  import opened Wrappers
  import opened Text

  // ----- the order -----

  /** Names that stand for "no released version". */
  predicate Unreleased(v: string) {
    v == "dev" || v == "unknown" || v == ""
  }

  function TrimV(v: string): string {
    if v != "" && v[0] == 'v' then v[1..] else v
  }

  /** Cuts a suffix that starts with `c`; a leading `c` is kept. */
  function CutAt(s: string, c: char): string {
    var i := IndexOf(s, c);
    if i > 0 then s[..i] else s
  }

  function Core(v: string): string {
    CutAt(CutAt(TrimV(v), '-'), '+')
  }

  /** The numbers of all parts, or nothing as soon as one part is no number. */
  function Numbers(parts: seq<string>): Option<seq<int>> {
    if parts == [] then Some([])
    else
      match (Atoi(parts[0]), Numbers(parts[1..]))
      case (Some(n), Some(ns)) => Some([n] + ns)
      case _ => None
  }

  function Parsed(v: string): Option<seq<int>> {
    Numbers(Split(Core(v), '.'))
  }

  /** Component `i`, with missing components read as zero. */
  function At(nums: seq<int>, i: nat): int {
    if i < |nums| then nums[i] else 0
  }

  /** `c` and `l` first differ at `k`, where `c` is smaller. */
  ghost predicate SmallerAt(c: seq<int>, l: seq<int>, k: nat) {
    At(c, k) < At(l, k) && forall j: nat | j < k :: At(c, j) == At(l, j)
  }

  ghost predicate NumbersOlder(c: seq<int>, l: seq<int>) {
    exists k: nat :: SmallerAt(c, l, k)
  }

  /** Equal once the shorter one is padded with zeros. */
  ghost predicate SamePadded(c: seq<int>, l: seq<int>) {
    forall i: nat :: At(c, i) == At(l, i)
  }

  /** `current` is strictly older than `latest`. */
  ghost predicate Older(current: string, latest: string) {
    if Unreleased(current) then
      !Unreleased(latest)
    else
      match (Parsed(current), Parsed(latest))
      case (Some(c), Some(l)) => NumbersOlder(c, l)
      case _ => false
  }

  // ----- the code -----

  method Parse(v: string) returns (nums: Option<seq<int>>)
    ensures nums == Parsed(v)
  {
    var u := TrimV(v);
    var seps := ['-', '+'];
    var k := 0;
    while k < |seps|
      invariant 0 <= k <= 2
      invariant u == [TrimV(v), CutAt(TrimV(v), '-'), Core(v)][k]
    {
      var idx := IndexOf(u, seps[k]);
      if idx > 0 {
        u := u[..idx];
      }
      k := k + 1;
    }
    nums := ParseParts(Split(u, '.'));
  }

  method ParseParts(parts: seq<string>) returns (nums: Option<seq<int>>)
    ensures nums == Numbers(parts)
  {
    var out: seq<int> := [];
    assert parts[..0] == [];
    for i := 0 to |parts|
      invariant Numbers(parts[..i]) == Some(out)
    {
      var n := Atoi(parts[i]);
      assert parts[..i + 1] == parts[..i] + [parts[i]];
      NumbersSnoc(parts[..i], parts[i]);
      if n.None? {
        NumbersOfPrefix(parts, i + 1);
        return None;
      }
      out := out + [n.value];
    }
    assert parts[..|parts|] == parts;
    nums := Some(out);
  }

  lemma {:induction false} NumbersSnoc(parts: seq<string>, last: string)
    ensures Numbers(parts + [last]) ==
            if Numbers(parts).None? || Atoi(last).None? then None
            else Some(Numbers(parts).value + [Atoi(last).value])
  {
    if parts == [] {
      assert parts + [last] == [last];
      NumbersOfOne(last);
      assert Atoi(last).Some? ==> [] + [Atoi(last).value] == [Atoi(last).value];
    } else {
      var rest := parts[1..];
      assert (parts + [last])[1..] == rest + [last];
      NumbersSnoc(rest, last);
      if Atoi(parts[0]).Some? && Numbers(rest).Some? && Atoi(last).Some? {
        var n, ns, m := Atoi(parts[0]).value, Numbers(rest).value, Atoi(last).value;
        assert ([n] + ns) + [m] == [n] + (ns + [m]);
      }
    }
  }

  lemma NumbersOfOne(part: string)
    ensures Numbers([part]) == match Atoi(part) case Some(n) => Some([n]) case None => None
  {
    var rest := [part][1..];
    assert rest == [] && Numbers(rest) == Some([]);
    if Atoi(part).Some? {
      assert [Atoi(part).value] + [] == [Atoi(part).value];
    }
  }

  lemma {:induction false} NumbersOfPrefix(parts: seq<string>, k: nat)
    requires k <= |parts| && Numbers(parts[..k]).None?
    ensures Numbers(parts).None?
  {
    if Atoi(parts[0]).Some? {
      assert parts[..k][1..] == parts[1..][..k - 1];
      NumbersOfPrefix(parts[1..], k - 1);
    }
  }

  method IsVersionOlder(current: string, latest: string) returns (older: bool)
    ensures older <==> Older(current, latest)
  {
    if current == "dev" || current == "unknown" || current == "" {
      return latest != "" && latest != "dev" && latest != "unknown";
    }
    var c := Parse(current);
    var l := Parse(latest);
    if c.None? || l.None? {
      return false;
    }
    older := CompareNumbers(c.value, l.value);
  }

  method CompareNumbers(c: seq<int>, l: seq<int>) returns (older: bool)
    ensures older <==> NumbersOlder(c, l)
  {
    var maxLen := if |l| > |c| then |l| else |c|;
    for i := 0 to maxLen
      invariant forall j: nat | j < i :: At(c, j) == At(l, j)
    {
      var cv := if i < |c| then c[i] else 0;
      var lv := if i < |l| then l[i] else 0;
      if cv < lv {
        assert SmallerAt(c, l, i);
        return true;
      }
      if cv > lv {
        assert SmallerAt(l, c, i);
        OppositeDifference(l, c);
        return false;
      }
    }
    return false;
  }

  // ----- order laws -----

  lemma OppositeDifference(c: seq<int>, l: seq<int>)
    requires NumbersOlder(c, l)
    ensures !NumbersOlder(l, c)
  {
    var k: nat :| SmallerAt(c, l, k);
    forall m: nat ensures !SmallerAt(l, c, m) {
      if m < k {
        assert At(c, m) == At(l, m);
      }
    }
  }

  lemma NumbersTransitive(a: seq<int>, b: seq<int>, c: seq<int>)
    requires NumbersOlder(a, b) && NumbersOlder(b, c)
    ensures NumbersOlder(a, c)
  {
    var i: nat :| SmallerAt(a, b, i);
    var j: nat :| SmallerAt(b, c, j);
    assert SmallerAt(a, c, if i < j then i else j);
  }

  lemma UnreleasedDoesNotParse(v: string)
    requires Unreleased(v)
    ensures Parsed(v).None?
  {
    assert v != "" ==> v[0] == 'd' || v[0] == 'u';
    PlainWord(v);
  }

  /** A string without the separators is parsed as one number. */
  lemma PlainWord(v: string)
    requires v == "" || v[0] != 'v'
    requires '-' !in v && '+' !in v && '.' !in v
    ensures Parsed(v) == match Atoi(v) case Some(n) => Some([n]) case None => None
  {
    assert Core(v) == v;
    SplitWhole(v, '.');
    NumbersOfOne(v);
  }

  /** The order is irreflexive, asymmetric and transitive on all strings. */
  lemma OlderIsStrictPartialOrder(a: string, b: string, c: string)
    ensures !Older(a, a)
    ensures Older(a, b) ==> !Older(b, a)
    ensures Older(a, b) && Older(b, c) ==> Older(a, c)
  {
    forall v | v in {a, b, c} && Unreleased(v) ensures Parsed(v).None? {
      UnreleasedDoesNotParse(v);
    }
    if Parsed(a).Some? && NumbersOlder(Parsed(a).value, Parsed(a).value) {
      OppositeDifference(Parsed(a).value, Parsed(a).value);
    }
    if Older(a, b) && !Unreleased(a) {
      OppositeDifference(Parsed(a).value, Parsed(b).value);
      if Older(b, c) {
        NumbersTransitive(Parsed(a).value, Parsed(b).value, Parsed(c).value);
      }
    }
  }

  /** Two number lists that differ somewhere are ordered one way or the other. */
  lemma {:induction false} DifferentIsOrdered(c: seq<int>, l: seq<int>, i: nat, k: nat)
    requires k <= i && At(c, i) != At(l, i)
    requires forall j: nat | j < k :: At(c, j) == At(l, j)
    ensures NumbersOlder(c, l) || NumbersOlder(l, c)
    decreases i - k
  {
    if At(c, k) == At(l, k) {
      DifferentIsOrdered(c, l, i, k + 1);
    } else {
      assert SmallerAt(c, l, k) || SmallerAt(l, c, k);
    }
  }

  /** On versions that parse, "neither is older" means equal after zero padding. */
  lemma IncomparableIffSamePadded(a: string, b: string)
    requires Parsed(a).Some? && Parsed(b).Some?
    ensures (!Older(a, b) && !Older(b, a)) <==> SamePadded(Parsed(a).value, Parsed(b).value)
  {
    forall v | v in {a, b} && Unreleased(v) ensures false {
      UnreleasedDoesNotParse(v);
    }
    var c, l := Parsed(a).value, Parsed(b).value;
    if !SamePadded(c, l) {
      var i: nat :| At(c, i) != At(l, i);
      DifferentIsOrdered(c, l, i, 0);
    }
  }

  // ----- missing components are zeros -----

  function Padded(c: seq<int>, n: nat): seq<int> {
    c + seq(n, _ => 0)
  }

  lemma PaddingHides(c: seq<int>, l: seq<int>)
    requires |c| <= |l|
    ensures SamePadded(c, l) <==> Padded(c, |l| - |c|) == l
  {
    var padded := Padded(c, |l| - |c|);
    assert forall i: nat :: At(padded, i) == At(c, i);
    if SamePadded(c, l) {
      forall i | 0 <= i < |l| ensures padded[i] == l[i] {
        assert At(padded, i) == At(c, i) == At(l, i);
      }
    }
  }

  /** Equal after padding means just that: literal zeros at the end of either make them one. */
  lemma SamePaddedIff(c: seq<int>, l: seq<int>)
    ensures SamePadded(c, l) <==> exists m: nat, n: nat :: Padded(c, m) == Padded(l, n)
  {
    if SamePadded(c, l) {
      if |c| <= |l| {
        PaddingHides(c, l);
        assert Padded(c, |l| - |c|) == Padded(l, 0);
      } else {
        PaddingHides(l, c);
        assert Padded(c, 0) == Padded(l, |c| - |l|);
      }
    }
    if m: nat, n: nat :| Padded(c, m) == Padded(l, n) {
      assert forall i: nat :: At(Padded(c, m), i) == At(c, i) && At(Padded(l, n), i) == At(l, i);
    }
  }

  /** A zero at the end of either list never changes the answer. */
  lemma TrailingZero(c: seq<int>, l: seq<int>)
    ensures NumbersOlder(c + [0], l) <==> NumbersOlder(c, l)
    ensures NumbersOlder(c, l + [0]) <==> NumbersOlder(c, l)
  {
    assert forall i: nat :: At(c + [0], i) == At(c, i) && At(l + [0], i) == At(l, i);
    assert forall k: nat :: SmallerAt(c + [0], l, k) <==> SmallerAt(c, l, k);
    assert forall k: nat :: SmallerAt(c, l + [0], k) <==> SmallerAt(c, l, k);
  }

  /** So for versions without a suffix ".0" at the end never does. */
  lemma TrailingZeroIsIgnored(v: string, w: string)
    requires Parsed(v).Some? && '-' !in v && '+' !in v
    ensures Older(v + ".0", w) <==> Older(v, w)
    ensures Older(w, v + ".0") <==> Older(w, v)
  {
    ParsedWithZero(v);
    if Unreleased(v) {
      UnreleasedDoesNotParse(v);
    }
    if Unreleased(v + ".0") {
      UnreleasedDoesNotParse(v + ".0");
    }
    hide Parsed, Unreleased;
    if Parsed(w).Some? {
      TrailingZero(Parsed(v).value, Parsed(w).value);
      TrailingZero(Parsed(w).value, Parsed(v).value);
    }
  }

  lemma ParsedWithZero(v: string)
    requires Parsed(v).Some? && '-' !in v && '+' !in v
    ensures Parsed(v + ".0") == Some(Parsed(v).value + [0])
  {
    hide IndexOf, CutAt, Numbers, Value, Split, Atoi;
    var u := TrimV(v);
    assert v != "" by {
      UnreleasedDoesNotParse("");
    }
    assert TrimV(v + ".0") == u + ".0";
    NothingToCut(v);
    NothingToCut(v + ".0");
    hide Core, TrimV;
    SplitLast(u, '.', "0");
    assert u + ['.'] + "0" == u + ".0";
    NumbersSnoc(Split(u, '.'), "0");
    AtoiOfDigits("0");
    OneDigit('0');
  }

  lemma NothingToCut(v: string)
    requires '-' !in v && '+' !in v
    ensures Core(v) == TrimV(v)
  {
  }

  /** A sign at the start belongs to the number and cuts nothing. */
  lemma SignIsKept(digits: string)
    requires IsNumber(digits) && Value(digits) <= MAX_INT
    ensures Parsed("-" + digits) == Some([-Value(digits)]) && Parsed("+" + digits) == Some([Value(digits)])
  {
    AtoiOfDigits(digits);
    SignedWord("-", digits);
    SignedWord("+", digits);
    hide Value, Atoi;
    NumbersOfOne("-" + digits);
    NumbersOfOne("+" + digits);
  }

  lemma SignedWord(sign: string, digits: string)
    requires (sign == "-" || sign == "+") && IsNumber(digits)
    ensures Split(Core(sign + digits), '.') == [sign + digits]
  {
    var v := sign + digits;
    assert v[1..] == digits && forall i | 1 <= i < |v| :: IsDigit(v[i]);
    assert '.' !in v;
    assert Core(v) == v by {
      hide IsDigit, Split;
      SignAtFront(v, sign[0]);
    }
    hide Core;
    SplitWhole(v, '.');
  }

  lemma SignAtFront(v: string, sign: char)
    requires v != "" && v[0] == sign && sign in "+-" && '+' !in v[1..] && '-' !in v[1..]
    ensures Core(v) == v
  {
    assert TrimV(v) == v && IndexOf(v, sign) == 0;
    var other := if sign == '+' then '-' else '+';
    assert other !in v;
    assert IndexOf(v, other) == -1;
  }

  // ----- the accepted release versions -----

  /** A string accepted by `^v?\d+\.\d+(\.\d+)?([-+].+)?$`, cut into its groups. */
  datatype Semver = Semver(prefixed: bool, major: string, minor: string, patch: Option<string>, suffix: string) {

    predicate WellFormed() {
      && IsNumber(major) && IsNumber(minor)
      && (patch.Some? ==> IsNumber(patch.value))
      && (suffix == "" || (|suffix| >= 2 && suffix[0] in "-+" && '\n' !in suffix[1..]))
    }

    function Body(): string {
      major + "." + minor + (if patch.Some? then "." + patch.value else "")
    }

    function Text(): string {
      (if prefixed then "v" else "") + Body() + suffix
    }

    function Groups(): seq<string> {
      [major, minor] + (if patch.Some? then [patch.value] else [])
    }

    predicate FitsInt() {
      forall i | 0 <= i < |Groups()| :: FitsGroup(Groups()[i])
    }
  }

  predicate IsNumber(s: string) {
    s != "" && AllDigits(s)
  }

  predicate FitsGroup(s: string) {
    IsNumber(s) && Value(s) <= MAX_INT
  }

  ghost predicate SemverLike(v: string) {
    exists x: Semver :: x.WellFormed() && v == x.Text()
  }

  lemma CutSuffix(body: string, suffix: string, c: char, d: char)
    requires body != "" && c !in body && d !in body && c != d
    requires suffix == "" || suffix[0] == c || suffix[0] == d
    ensures CutAt(CutAt(body + suffix, c), d) == body
  {
    var s := body + suffix;
    if suffix != "" && suffix[0] == c {
      assert s[..|body|] == body;
      IndexOfIs(s, c, |body|);
    } else if suffix != "" {
      var cut := CutAt(s, c);
      var i := IndexOf(s, c);
      assert i < 0 || i > |body| by {
        assert forall j | 0 <= j < |body| :: s[j] == body[j];
      }
      assert cut[|body|] == d && cut[..|body|] == body;
      IndexOfIs(cut, d, |body|);
    } else {
      assert s == body;
    }
  }

  lemma SplitBody(x: Semver)
    requires x.WellFormed()
    ensures Split(x.Body(), '.') == x.Groups()
  {
    var tail := if x.patch.Some? then x.minor + ['.'] + x.patch.value else x.minor;
    assert x.Body() == x.major + ['.'] + tail;
    NumberHasNoDot(x.major);
    NumberHasNoDot(x.minor);
    SplitCons(x.major, '.', tail);
    if x.patch.Some? {
      NumberHasNoDot(x.patch.value);
      SplitCons(x.minor, '.', x.patch.value);
      SplitWhole(x.patch.value, '.');
    } else {
      SplitWhole(x.minor, '.');
    }
  }

  lemma NumberHasNoDot(s: string)
    requires IsNumber(s)
    ensures '.' !in s
  {
  }

  lemma CoreOfSemver(x: Semver)
    requires x.WellFormed()
    ensures Core(x.Text()) == x.Body()
  {
    var v, body := x.Text(), x.Body();
    assert body[0] == x.major[0] && IsDigit(body[0]);
    if x.prefixed {
      assert v[1..] == body + x.suffix;
      assert v[1] == body[0];
    } else {
      assert v == body + x.suffix;
    }
    assert TrimV(v) == body + x.suffix;
    assert forall i | 0 <= i < |body| :: IsDigit(body[i]) || body[i] == '.';
    CutSuffix(body, x.suffix, '-', '+');
  }

  /** `nums` are the numbers that the digit groups denote. */
  predicate Denote(groups: seq<string>, nums: seq<int>) {
    |nums| == |groups| && forall i | 0 <= i < |nums| :: FitsGroup(groups[i]) && nums[i] == Value(groups[i])
  }

  lemma {:induction false} GroupsParse(groups: seq<string>)
    requires forall i | 0 <= i < |groups| :: IsNumber(groups[i])
    ensures Numbers(groups).Some? <==> forall i | 0 <= i < |groups| :: FitsGroup(groups[i])
    ensures Numbers(groups).Some? ==> Denote(groups, Numbers(groups).value)
  {
    if groups != [] {
      AtoiOfDigits(groups[0]);
      var rest := groups[1..];
      GroupsParse(rest);
      assert forall i | 1 <= i < |groups| :: groups[i] == rest[i - 1];
      assert forall i | 0 <= i < |rest| :: rest[i] == groups[i + 1];
    }
  }

  /** An accepted release version parses exactly when its numbers fit an int, and
      then to its two or three numbers, whatever prefix or suffix it has. */
  lemma {:induction false} SemverParses(x: Semver)
    requires x.WellFormed()
    ensures Parsed(x.Text()).Some? <==> x.FitsInt()
    ensures x.FitsInt() ==> Denote(x.Groups(), Parsed(x.Text()).value)
  {
    hide Parsed, Numbers, Semver.Text;
    ParsedFromGroups(x);
    var groups := x.Groups();
    assert forall i | 0 <= i < |groups| :: IsNumber(groups[i]);
    GroupsParse(groups);
  }

  /** The third number of a release, zero if it has none. */
  function PatchNumber(x: Semver): int
    requires x.WellFormed()
  {
    if x.patch.Some? then Value(x.patch.value) else 0
  }

  /** Of two releases one is older exactly if its numbers are lexicographically smaller,
      a missing third one counting as zero; prefixes and suffixes play no part. */
  lemma SemverOrder(x: Semver, y: Semver)
    requires x.WellFormed() && x.FitsInt() && y.WellFormed() && y.FitsInt()
    ensures Older(x.Text(), y.Text()) <==>
            || Value(x.major) < Value(y.major)
            || (Value(x.major) == Value(y.major) && Value(x.minor) < Value(y.minor))
            || (Value(x.major) == Value(y.major) && Value(x.minor) == Value(y.minor)
                && PatchNumber(x) < PatchNumber(y))
  {
    ReleaseNumbers(x);
    ReleaseNumbers(y);
    forall v | v in {x.Text(), y.Text()} && Unreleased(v) ensures false {
      UnreleasedDoesNotParse(v);
    }
    hide Parsed, Semver.Text, Value, Semver.WellFormed, Semver.FitsInt, PatchNumber;
    ThreeDecide(Parsed(x.Text()).value, Parsed(y.Text()).value);
  }

  lemma ThreeDecide(c: seq<int>, l: seq<int>)
    requires forall k: nat | k >= 3 :: At(c, k) == At(l, k) == 0
    ensures NumbersOlder(c, l) <==>
            || At(c, 0) < At(l, 0)
            || (At(c, 0) == At(l, 0) && At(c, 1) < At(l, 1))
            || (At(c, 0) == At(l, 0) && At(c, 1) == At(l, 1) && At(c, 2) < At(l, 2))
  {
    hide At;
    assert forall k: nat | k >= 3 :: !SmallerAt(c, l, k);
    assert NumbersOlder(c, l) <==> SmallerAt(c, l, 0) || SmallerAt(c, l, 1) || SmallerAt(c, l, 2);
  }

  lemma ReleaseNumbers(x: Semver)
    requires x.WellFormed() && x.FitsInt()
    ensures Parsed(x.Text()).Some?
    ensures var c := Parsed(x.Text()).value;
            && At(c, 0) == Value(x.major) && At(c, 1) == Value(x.minor) && At(c, 2) == PatchNumber(x)
            && forall k: nat | k >= 3 :: At(c, k) == 0
  {
    SemverParses(x);
    hide Parsed, Semver.Text, Value;
    var groups := x.Groups();
    assert groups[0] == x.major && groups[1] == x.minor && (x.patch.Some? ==> groups[2] == x.patch.value);
  }

  lemma {:induction false} ParsedFromGroups(x: Semver)
    requires x.WellFormed()
    ensures Parsed(x.Text()) == Numbers(x.Groups())
  {
    hide Semver.Text, Semver.Body, Semver.Groups, Core, Numbers;
    CoreOfSemver(x);
    SplitBody(x);
  }

  /** Off the parsable strings the order is not a weak order: "x" is incomparable
      with both "1" and "2", which are ordered. */
  lemma IncomparableIsNotTransitive()
    ensures !Older("1", "x") && !Older("x", "1")
    ensures !Older("x", "2") && !Older("2", "x")
    ensures Older("1", "2")
  {
    OneCharacterParses('x');
    OneCharacterParses('1');
    OneCharacterParses('2');
    assert SmallerAt([1], [2], 0);
  }

  lemma OneCharacterParses(c: char)
    requires c != '.' && c != 'v' && c != '-' && c != '+'
    ensures Parsed([c]) == if IsDigit(c) then Some([c as int - '0' as int]) else None
  {
    PlainWord([c]);
    if IsDigit(c) {
      AtoiOfDigits([c]);
      assert Value([c][..0]) == 0;
    }
  }

  /** The shortest releases: two digits with a dot. */
  lemma TwoDigits(major: char, minor: char)
    requires IsDigit(major) && IsDigit(minor)
    ensures SemverLike([major, '.', minor])
    ensures Parsed([major, '.', minor]) == Some([major as int - '0' as int, minor as int - '0' as int])
  {
    var x := Semver(false, [major], [minor], None, "");
    hide Parsed, Semver.Text, Semver.Groups, Semver.WellFormed, Semver.FitsInt, FitsGroup, Value, Denote;
    TwoDigitText(x, major, minor);
    SemverParses(x);
    TwoNumbers(Parsed(x.Text()).value, major, minor);
  }

  lemma TwoNumbers(nums: seq<int>, major: char, minor: char)
    requires IsDigit(major) && IsDigit(minor) && Denote([[major], [minor]], nums)
    ensures nums == [major as int - '0' as int, minor as int - '0' as int]
  {
    OneDigit(major);
    OneDigit(minor);
    hide Value;
  }

  lemma OneDigit(c: char)
    requires IsDigit(c)
    ensures FitsGroup([c]) && Value([c]) == c as int - '0' as int
  {
    assert Value([c][..0]) == 0;
  }

  lemma TwoDigitText(x: Semver, major: char, minor: char)
    requires IsDigit(major) && IsDigit(minor) && x == Semver(false, [major], [minor], None, "")
    ensures x.Text() == [major, '.', minor] && x.Groups() == [[major], [minor]] && x.WellFormed() && x.FitsInt()
  {
    OneDigit(major);
    OneDigit(minor);
    hide Value;
    assert x.Groups() == [[major], [minor]];
    assert forall i | 0 <= i < |x.Groups()| :: FitsGroup(x.Groups()[i]);
  }
}
