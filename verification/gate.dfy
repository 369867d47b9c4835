/** Kernel strings: a nullable `UNICODE_STRING` whose `Length` is in bytes. */
module KernelStrings {
  import opened Wire

  datatype UnicodeString = UnicodeString(length: u16, buffer: Option<seq<u16>>) {
    /** The kernel's promise: a buffer that is not null holds what `Length` announces. */
    predicate Valid() { buffer.Some? ==> |buffer.value| >= length / 2 }
  }

  type PUnicodeString = s: Option<UnicodeString> | s.Some? ==> s.value.Valid() witness None

  /** The UTF-16 units a pointer denotes; an odd last byte is not part of them. */
  function Units(s: PUnicodeString): (us: seq<u16>)
    ensures s == None || s.value.buffer == None ==> us == []
    ensures s.Some? && s.value.buffer.Some? ==> us <= s.value.buffer.value && 2 * |us| <= s.value.length <= 2 * |us| + 1
  {
    if s == None || s.value.buffer == None then [] else s.value.buffer.value[..s.value.length / 2]
  }

  /** A string cut to a field of `max` units, one of which is reserved. */
  function Cut(us: seq<u16>, max: nat): (r: seq<u16>)
    requires max > 0
    ensures |r| <= max - 1
    ensures r <= us
    ensures |r| < max - 1 ==> r == us
  {
    if |us| > max - 1 then us[..max - 1] else us
  }

  /** How many truncations the cut counts: one exactly when it takes something away. */
  function CutCount(us: seq<u16>, max: nat): (n: nat)
    requires max > 0
    ensures n == if Cut(us, max) == us then 0 else 1
  {
    if |us| > max - 1 then 1 else 0
  }

  /** One bounded copy: a source of `units` into a field with room for `room`. */
  datatype Copy = Copy(units: nat, room: nat)

  /** How many of the copies cut their source. */
  function Truncated(cs: seq<Copy>): nat {
    if cs == [] then 0 else Truncated(cs[..|cs| - 1]) + if cs[|cs| - 1].units > cs[|cs| - 1].room then 1 else 0
  }

  lemma {:induction false} TruncatedConcat(cs: seq<Copy>, ds: seq<Copy>)
    ensures Truncated(cs + ds) == Truncated(cs) + Truncated(ds)
  {
    if ds == [] {
      assert cs + ds == cs;
    } else {
      TruncatedConcat(cs, ds[..|ds| - 1]);
      assert (cs + ds)[..|cs + ds| - 1] == cs + ds[..|ds| - 1];
    }
  }

  /** A null string, a null buffer or no length: nothing is copied. */
  predicate Absent(src: PUnicodeString) { src == None || src.value.buffer == None || src.value.length == 0 }

  function TextCopies(src: PUnicodeString, max: nat): seq<Copy>
    requires max > 0
  {
    if Absent(src) then [] else [Copy(|Units(src)|, max - 1)]
  }

  lemma TextCut(src: PUnicodeString, max: nat)
    requires max > 0
    ensures Truncated(TextCopies(src, max)) == CutCount(Units(src), max)
    ensures Truncated(TextCopies(src, max)) == if |Cut(Units(src), max)| < |Units(src)| then 1 else 0
  {
    if !Absent(src) {
      assert TextCopies(src, max)[..0] == [];
    }
  }

  function Repeat(n: nat): (us: seq<u16>)
    ensures |us| == n
  {
    seq(n, _ => 0x41)
  }

  /** A recorded length proves that the source was not truncated if and only if it is below the reserved
      slot: at `max - 1` a source that fits exactly and a longer one look the same. */
  lemma LengthShowsWholeIff(n: nat, max: nat)
    requires n <= max - 1
    ensures (forall us: seq<u16> :: |Cut(us, max)| == n ==> Cut(us, max) == us) <==> n < max - 1
  {
    if n == max - 1 {
      var longer := Repeat(max);
      assert |Cut(longer, max)| == n && Cut(longer, max) != longer;
    }
  }

  /** The reserved slot does not tell the two apart, byte for byte. */
  lemma ReservedSlotAmbiguous(max: nat)
    requires max > 0
    ensures exists us: seq<u16>, vs: seq<u16> :: Cut(us, max) == Cut(vs, max) && Cut(us, max) == us && Cut(vs, max) != vs
  {
    var us, vs := Repeat(max - 1), Repeat(max);
    assert Cut(us, max) == us;
    assert Cut(vs, max) == us;
  }
}

/** The registry gate: which key paths are worth an event. */
module Gate {
  import opened Wire
  import opened KernelStrings

  /** The same unit, or the two cases of one ASCII letter. */
  predicate SameLetter(c: u16, d: u16) {
    c == d || (0x41 <= c <= 0x5A && d == c + 0x20) || (0x61 <= c <= 0x7A && d == c - 0x20)
  }

  /** The path starts with the prefix, up to ASCII case; a unit beyond ASCII matches nothing. */
  predicate HasPrefix(key: seq<u16>, prefix: seq<byte>) {
    |prefix| <= |key| && forall i :: 0 <= i < |prefix| ==> key[i] <= 0x7F && SameLetter(key[i], prefix[i])
  }

  predicate Matches(prefixes: seq<seq<byte>>, key: seq<u16>) {
    exists i :: 0 <= i < |prefixes| && HasPrefix(key, prefixes[i])
  }

  /** `key_has_ascii_prefix_ci`: the loop decides `HasPrefix`. */
  method KeyHasAsciiPrefixCi(key: seq<u16>, prefix: seq<byte>) returns (r: bool)
    ensures r <==> HasPrefix(key, prefix)
  {
    if |key| < |prefix| { return false; }
    var i := 0;
    while i < |prefix|
      invariant i <= |prefix|
      invariant forall j :: 0 <= j < i ==> key[j] <= 0x7F && SameLetter(key[j], prefix[j])
    {
      var k := key[i];
      if k > 0x7F { return false; }
      var ku := if 0x61 <= k <= 0x7A then k - 0x20 else k;
      var pb := prefix[i];
      var pu := if 0x61 <= pb <= 0x7A then pb - 0x20 else pb;
      if ku != pu { return false; }
      i := i + 1;
    }
    return true;
  }

  function Ascii(s: string): (r: seq<byte>)
    ensures |r| == |s|
    ensures IsAscii(r)
    ensures forall i :: 0 <= i < |s| && s[i] < 128 as char ==> r[i] == s[i] as int
  {
    seq(|s|, i requires 0 <= i < |s| => s[i] as int % 128)
  }

  const MACHINE := "\\REGISTRY\\MACHINE"
  const CONTROL_SET := "\\SYSTEM" + "\\Current" + "ControlSet"
  const SOFTWARE := "\\SOFTWARE"
  const MICROSOFT := "\\Microsoft"
  const WINDOWS := "\\Windows\\CurrentVersion"
  const WINDOWS_NT := "\\Windows NT\\CurrentVersion"
  const USERS := "\\REGISTRY\\USER"

  const SERVICES := Ascii(MACHINE + CONTROL_SET + "\\Services")
  const RUN := Ascii(MACHINE + SOFTWARE + MICROSOFT + WINDOWS + "\\Run")
  const RUN_WOW := Ascii(MACHINE + SOFTWARE + "\\Wow6432Node" + MICROSOFT + WINDOWS + "\\Run")
  const ONCE := Ascii("Once")
  const IFEO := Ascii(MACHINE + SOFTWARE + MICROSOFT + WINDOWS_NT + "\\Image File Execution Options")
  const WINLOGON := Ascii(MACHINE + SOFTWARE + MICROSOFT + WINDOWS_NT + "\\Winlogon")
  const SAFE_BOOT := Ascii(MACHINE + CONTROL_SET + "\\Control\\SafeBoot")
  const LSA := Ascii(MACHINE + CONTROL_SET + "\\Control\\Lsa")
  const DEFENDER_POLICIES := Ascii(MACHINE + SOFTWARE + "\\Policies" + MICROSOFT + "\\Windows Defender")
  const DEFENDER := Ascii(MACHINE + SOFTWARE + MICROSOFT + "\\Windows Defender")
  const USER := Ascii(USERS)

  /** `CRITICAL_REGISTRY_PREFIXES`, in order. */
  const CRITICAL: seq<seq<byte>> :=
    [SERVICES, RUN, RUN + ONCE, RUN_WOW, RUN_WOW + ONCE, IFEO, WINLOGON, SAFE_BOOT, LSA, DEFENDER_POLICIES, DEFENDER, USER]

  /** The list without its two RunOnce entries. */
  const WITHOUT_ONCE: seq<seq<byte>> :=
    [SERVICES, RUN, RUN_WOW, IFEO, WINLOGON, SAFE_BOOT, LSA, DEFENDER_POLICIES, DEFENDER, USER]

  predicate Interesting(key: seq<u16>) { Matches(CRITICAL, key) }

  /** `is_interesting_path`. */
  method IsInterestingPath(key: seq<u16>) returns (r: bool)
    ensures r <==> Interesting(key)
  {
    hide HasPrefix, CRITICAL;
    for n := 0 to |CRITICAL|
      invariant forall i :: 0 <= i < n ==> !HasPrefix(key, CRITICAL[i])
    {
      var hit := KeyHasAsciiPrefixCi(key, CRITICAL[n]);
      if hit { return true; }
    }
    return false;
  }

  /** `is_interesting_unicode_string`: null pointers and empty strings are not interesting, and every
      other string is judged by its full length. */
  method IsInterestingUnicodeString(s: PUnicodeString) returns (r: bool)
    ensures r <==> Interesting(Units(s))
  {
    hide Interesting;
    EmptyIsDull();
    if s == None { return false; }
    if s.value.buffer == None || s.value.length == 0 { return false; }
    var chars := s.value.length / 2;
    r := IsInterestingPath(s.value.buffer.value[..chars]);
  }

  lemma PrefixLengths()
    ensures forall i :: 0 <= i < |CRITICAL| ==> 0 < |CRITICAL[i]| <= 100
  {
  }

  lemma EmptyIsDull()
    ensures !Interesting([])
  {
    PrefixLengths();
  }

  // ---------------------------------------------------------------- laws of the gate

  lemma PrefixOfPart(key: seq<u16>, n: nat, prefix: seq<byte>)
    requires |prefix| <= n <= |key|
    ensures HasPrefix(key, prefix) <==> HasPrefix(key[..n], prefix)
  {
    assert HasPrefix(key[..n], prefix) ==> forall i :: 0 <= i < |prefix| ==> key[i] == key[..n][i];
  }

  /** A gate never looks past its longest prefix. */
  lemma MatchesPart(prefixes: seq<seq<byte>>, key: seq<u16>, n: nat)
    requires n <= |key| && forall i :: 0 <= i < |prefixes| ==> |prefixes[i]| <= n
    ensures Matches(prefixes, key) <==> Matches(prefixes, key[..n])
  {
    forall i | 0 <= i < |prefixes| ensures HasPrefix(key, prefixes[i]) <==> HasPrefix(key[..n], prefixes[i]) {
      PrefixOfPart(key, n, prefixes[i]);
    }
    hide HasPrefix;
  }

  /** The two gates agree: judging the copy cut to a field gives the answer for the full path. */
  lemma CutGateAgrees(key: seq<u16>, max: nat)
    requires max > 100
    ensures Interesting(Cut(key, max)) <==> Interesting(key)
  {
    PrefixLengths();
    if |key| > max - 1 {
      hide CRITICAL, HasPrefix, Matches;
      MatchesPart(CRITICAL, key, max - 1);
    }
  }

  /** Extending a path never makes it uninteresting. */
  lemma GateMonotone(key: seq<u16>, more: seq<u16>)
    ensures Interesting(key) ==> Interesting(key + more)
  {
    hide CRITICAL;
    if Interesting(key) {
      var i :| 0 <= i < |CRITICAL| && HasPrefix(key, CRITICAL[i]);
      assert (key + more)[..|key|] == key;
      PrefixOfPart(key + more, |key|, CRITICAL[i]);
    }
  }

  predicate SameUpToCase(k1: seq<u16>, k2: seq<u16>) {
    |k1| == |k2| && forall i :: 0 <= i < |k1| ==> SameLetter(k1[i], k2[i])
  }

  /** The gate does not see ASCII case. */
  lemma GateIgnoresCase(k1: seq<u16>, k2: seq<u16>)
    requires SameUpToCase(k1, k2)
    ensures Interesting(k1) <==> Interesting(k2)
  {
    hide CRITICAL;
    forall i | 0 <= i < |CRITICAL| ensures HasPrefix(k1, CRITICAL[i]) <==> HasPrefix(k2, CRITICAL[i]) {
      assert forall j :: 0 <= j < |k1| ==> (k1[j] <= 0x7F <==> k2[j] <= 0x7F);
    }
    hide HasPrefix;
  }

  /** A prefix read as a path of its own. */
  function AsPath(p: seq<byte>): (key: seq<u16>)
    ensures |key| == |p|
    ensures forall i :: 0 <= i < |p| ==> key[i] == p[i]
  {
    seq(|p|, i requires 0 <= i < |p| => p[i])
  }

  lemma Subsumed(key: seq<u16>, p: seq<byte>, q: seq<byte>)
    requires HasPrefix(key, p) && HasPrefix(AsPath(p), q)
    ensures HasPrefix(key, q)
  {
  }

  predicate IsAscii(p: seq<byte>) { forall i :: 0 <= i < |p| ==> p[i] <= 0x7F }

  function Without(prefixes: seq<seq<byte>>, i: nat): seq<seq<byte>>
    requires i < |prefixes|
  {
    prefixes[..i] + prefixes[i + 1..]
  }

  lemma MatchesWithout(prefixes: seq<seq<byte>>, i: nat, key: seq<u16>)
    requires i < |prefixes|
    ensures Matches(prefixes, key) <==> HasPrefix(key, prefixes[i]) || Matches(Without(prefixes, i), key)
  {
    hide HasPrefix;
    var rest := Without(prefixes, i);
    if Matches(prefixes, key) {
      var j :| 0 <= j < |prefixes| && HasPrefix(key, prefixes[j]);
      if j != i { assert rest[if j < i then j else j - 1] == prefixes[j]; }
    }
    if Matches(rest, key) {
      var j :| 0 <= j < |rest| && HasPrefix(key, rest[j]);
      assert rest[j] == prefixes[if j < i then j else j + 1];
    }
  }

  /** An ASCII entry can be removed from a gate without changing any answer if and only if the other
      entries already match it. */
  lemma RedundantIff(prefixes: seq<seq<byte>>, i: nat)
    requires i < |prefixes| && IsAscii(prefixes[i])
    ensures (forall key :: Matches(prefixes, key) <==> Matches(Without(prefixes, i), key))
            <==> Matches(Without(prefixes, i), AsPath(prefixes[i]))
  {
    var p, rest := prefixes[i], Without(prefixes, i);
    MatchesWithout(prefixes, i, AsPath(p));
    assert HasPrefix(AsPath(p), p);
    if Matches(rest, AsPath(p)) {
      var j :| 0 <= j < |rest| && HasPrefix(AsPath(p), rest[j]);
      forall key ensures Matches(prefixes, key) <==> Matches(rest, key) {
        MatchesWithout(prefixes, i, key);
        if HasPrefix(key, p) { Subsumed(key, p, rest[j]); }
      }
    }
  }

  lemma LongerSubsumed(key: seq<u16>, p: seq<byte>, more: seq<byte>)
    ensures HasPrefix(key, p + more) ==> HasPrefix(key, p)
  {
    assert HasPrefix(key, p + more) ==> forall i :: 0 <= i < |p| ==> (p + more)[i] == p[i];
  }

  /** Both RunOnce entries are redundant: Run subsumes them. */
  lemma RunOnceRedundant(key: seq<u16>)
    ensures Interesting(key) <==> Matches(WITHOUT_ONCE, key)
  {
    LongerSubsumed(key, RUN, ONCE);
    LongerSubsumed(key, RUN_WOW, ONCE);
    hide HasPrefix, SERVICES, RUN, RUN_WOW, ONCE, IFEO, WINLOGON, SAFE_BOOT, LSA, DEFENDER_POLICIES, DEFENDER, USER;
    var all, few := CRITICAL, WITHOUT_ONCE;
    if Matches(all, key) {
      var i :| 0 <= i < |all| && HasPrefix(key, all[i]);
      var j := if i < 2 then i else if i == 2 then 1 else if i <= 4 then 2 else i - 2;
      assert HasPrefix(key, few[j]);
    }
    if Matches(few, key) {
      var j :| 0 <= j < |few| && HasPrefix(key, few[j]);
      var i := if j < 2 then j else if j == 2 then 3 else j + 2;
      assert HasPrefix(key, all[i]);
    }
  }

  /** Every key at or below a watched location is reported, however its ASCII letters are written. */
  lemma WatchedIsInteresting(i: nat, key: seq<u16>, more: seq<u16>)
    requires i < |CRITICAL| && SameUpToCase(AsPath(CRITICAL[i]), key)
    ensures Interesting(key + more)
  {
    ListedAscii();
    hide CRITICAL;
    assert HasPrefix(key, CRITICAL[i]);
    GateMonotone(key, more);
  }

  lemma ListedAscii()
    ensures forall i :: 0 <= i < |CRITICAL| ==> IsAscii(CRITICAL[i])
  {
    hide IsAscii;
    JoinedAscii(RUN, ONCE);
    JoinedAscii(RUN_WOW, ONCE);
  }

  lemma JoinedAscii(p: seq<byte>, q: seq<byte>)
    requires IsAscii(p) && IsAscii(q)
    ensures IsAscii(p + q)
  {
  }

  const LOWER_MACHINE := "\\registry\\machine"
  const LOWER_CONTROL_SET := "\\system" + "\\current" + "controlset"
  const LOWER_USERS := "\\registry\\user"

  /** For instance the services of the machine and the hives of its users, in lower case. */
  lemma LowerCaseIsInteresting(more: seq<u16>)
    ensures Interesting(AsPath(Ascii(LOWER_MACHINE + LOWER_CONTROL_SET + "\\services")) + more)
    ensures Interesting(AsPath(Ascii(LOWER_USERS)) + more)
  {
    LowerServices();
    LowerUsers();
    assert |CRITICAL| == 12 && CRITICAL[0] == SERVICES && CRITICAL[11] == USER;
    hide SERVICES, USER, CRITICAL, LOWER_MACHINE, LOWER_CONTROL_SET, LOWER_USERS, Interesting;
    WatchedIsInteresting(0, AsPath(Ascii(LOWER_MACHINE + LOWER_CONTROL_SET + "\\services")), more);
    WatchedIsInteresting(11, AsPath(Ascii(LOWER_USERS)), more);
  }

  predicate Lowers(a: string, b: string) { SameUpToCase(AsPath(Ascii(a)), AsPath(Ascii(b))) }

  lemma LowersJoin(a: string, b: string, x: string, y: string)
    requires Lowers(a, b) && Lowers(x, y)
    ensures Lowers(a + x, b + y)
  {
    AsciiJoin(a, x);
    AsciiJoin(b, y);
    hide Ascii;
  }

  lemma AsciiJoin(a: string, x: string)
    ensures Ascii(a + x) == Ascii(a) + Ascii(x)
  {
  }

  lemma LowerUsers()
    ensures Lowers(USERS, LOWER_USERS)
  {
  }

  lemma LowerMachine()
    ensures Lowers(MACHINE, LOWER_MACHINE)
  {
  }

  lemma LowerSystem()
    ensures Lowers("\\SYSTEM", "\\system")
  {
  }

  lemma LowerCurrent()
    ensures Lowers("\\Current", "\\current")
  {
  }

  lemma LowerSet()
    ensures Lowers("ControlSet", "controlset")
  {
  }

  lemma LowerControlSet()
    ensures Lowers(CONTROL_SET, LOWER_CONTROL_SET)
  {
    hide Lowers;
    LowerSystem();
    LowerCurrent();
    LowerSet();
    LowersJoin("\\SYSTEM", "\\system", "\\Current", "\\current");
    LowersJoin("\\SYSTEM" + "\\Current", "\\system" + "\\current", "ControlSet", "controlset");
  }

  lemma LowerServices()
    ensures Lowers(MACHINE + CONTROL_SET + "\\Services", LOWER_MACHINE + LOWER_CONTROL_SET + "\\services")
  {
    LowerMachine();
    LowerControlSet();
    assert Lowers("\\Services", "\\services");
    hide Lowers, MACHINE, CONTROL_SET, LOWER_MACHINE, LOWER_CONTROL_SET;
    LowersJoin(MACHINE, LOWER_MACHINE, CONTROL_SET, LOWER_CONTROL_SET);
    LowersJoin(MACHINE + CONTROL_SET, LOWER_MACHINE + LOWER_CONTROL_SET, "\\Services", "\\services");
  }

  /** The prefix starts with `\REGISTRY\`, then `M` or `U`. */
  predicate UnderHive(p: seq<byte>) {
    && |p| >= 14 && p[0] == 0x5C && p[1] == 0x52 && p[2] == 0x45 && p[3] == 0x47 && p[4] == 0x49 && p[5] == 0x53
    && p[6] == 0x54 && p[7] == 0x52 && p[8] == 0x59 && p[9] == 0x5C && (p[10] == 0x4D || p[10] == 0x55)
  }

  /** Nothing outside the machine and user hives is reported. */
  lemma OnlyMachineAndUser(key: seq<u16>)
    requires Interesting(key)
    ensures |key| >= 14 && HasPrefix(key, Ascii("\\REGISTRY\\")) && (SameLetter(key[10], 0x4D) || SameLetter(key[10], 0x55))
  {
    ListedHives();
    hide CRITICAL;
    var i :| 0 <= i < |CRITICAL| && HasPrefix(key, CRITICAL[i]);
    var p := CRITICAL[i];
    assert UnderHive(p);
    assert forall j :: 0 <= j < 10 ==> Ascii("\\REGISTRY\\")[j] == p[j];
  }

  lemma UnderMachine(rest: string)
    ensures UnderHive(Ascii(MACHINE + rest))
  {
    AsciiJoin(MACHINE, rest);
  }

  lemma ListedHives()
    ensures forall i :: 0 <= i < |CRITICAL| ==> UnderHive(CRITICAL[i])
  {
    hide UnderHive, Ascii, MACHINE, CONTROL_SET, SOFTWARE, MICROSOFT, WINDOWS, WINDOWS_NT;
    assert MACHINE + CONTROL_SET + "\\Services" == MACHINE + (CONTROL_SET + "\\Services");
    assert MACHINE + CONTROL_SET + "\\Control\\SafeBoot" == MACHINE + (CONTROL_SET + "\\Control\\SafeBoot");
    assert MACHINE + CONTROL_SET + "\\Control\\Lsa" == MACHINE + (CONTROL_SET + "\\Control\\Lsa");
    UnderMachine(CONTROL_SET + "\\Services");
    UnderMachine(CONTROL_SET + "\\Control\\SafeBoot");
    UnderMachine(CONTROL_SET + "\\Control\\Lsa");
    SoftwareHives();
    UsersHive();
    LongerHive(RUN, ONCE);
    LongerHive(RUN_WOW, ONCE);
  }

  lemma UsersHive()
    ensures UnderHive(USER)
  {
  }

  lemma SoftwareHives()
    ensures UnderHive(RUN) && UnderHive(RUN_WOW) && UnderHive(IFEO) && UnderHive(WINLOGON)
    ensures UnderHive(DEFENDER_POLICIES) && UnderHive(DEFENDER)
  {
    hide UnderHive, Ascii, MACHINE, SOFTWARE, MICROSOFT, WINDOWS, WINDOWS_NT;
    var s, m, v, nt := SOFTWARE, MICROSOFT, WINDOWS, WINDOWS_NT;
    assert MACHINE + s + m + v + "\\Run" == MACHINE + (s + m + v + "\\Run");
    assert MACHINE + s + "\\Wow6432Node" + m + v + "\\Run" == MACHINE + (s + "\\Wow6432Node" + m + v + "\\Run");
    assert MACHINE + s + m + nt + "\\Image File Execution Options" == MACHINE + (s + m + nt + "\\Image File Execution Options");
    assert MACHINE + s + m + nt + "\\Winlogon" == MACHINE + (s + m + nt + "\\Winlogon");
    assert MACHINE + s + "\\Policies" + m + "\\Windows Defender" == MACHINE + (s + "\\Policies" + m + "\\Windows Defender");
    assert MACHINE + s + m + "\\Windows Defender" == MACHINE + (s + m + "\\Windows Defender");
    UnderMachine(s + m + v + "\\Run");
    UnderMachine(s + "\\Wow6432Node" + m + v + "\\Run");
    UnderMachine(s + m + nt + "\\Image File Execution Options");
    UnderMachine(s + m + nt + "\\Winlogon");
    UnderMachine(s + "\\Policies" + m + "\\Windows Defender");
    UnderMachine(s + m + "\\Windows Defender");
  }

  lemma LongerHive(p: seq<byte>, q: seq<byte>)
    requires UnderHive(p)
    ensures UnderHive(p + q)
  {
  }
}
