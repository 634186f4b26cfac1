/** constants.ts: the Indian mobile-number pattern and the seed listings shown
    when the backend is unavailable. */
module Constants {
  import opened Types

  /** One regex item: the character class `[lo-hi]` repeated exactly `count` times. */
  datatype Atom = Atom(lo: char, hi: char, count: nat)

  /** INDIAN_PHONE_REGEX, `^[6-9]\d{9}$`. Without the `u` flag JavaScript's `\d`
      is the ASCII class `[0-9]`. */
  const IndianPhonePattern: seq<Atom> := [Atom('6', '9', 1), Atom('0', '9', 9)]

  /** Anchored match (`^...$`) of a list of fixed-count items against the whole
      of `s`. Fixed counts leave the matcher no choice, so no backtracking is
      needed. */
  predicate Matches(pattern: seq<Atom>, s: string)
  {
    if pattern == [] then s == []
    else
      var a := pattern[0];
      a.count <= |s|
      && (forall i :: 0 <= i < a.count ==> a.lo <= s[i] <= a.hi)
      && Matches(pattern[1..], s[a.count..])
  }

  predicate IsDigit(c: char)
  {
    '0' <= c <= '9'
  }

  /** The accepted phone numbers, stated without the regex: ten ASCII digits,
      the first of them 6 to 9. */
  predicate IsIndianPhone(s: string)
  {
    |s| == 10 && '6' <= s[0] <= '9' && forall i :: 0 <= i < |s| ==> IsDigit(s[i])
  }

  /** The pattern accepts exactly the ten-digit numbers starting with 6-9. */
  lemma PhonePatternMeaning(s: string)
    ensures Matches(IndianPhonePattern, s) <==> IsIndianPhone(s)
  {
    var first, rest := IndianPhonePattern[0], IndianPhonePattern[1..];
    assert rest == [Atom('0', '9', 9)];
    assert rest[1..] == [];
    if |s| >= 1 {
      var tail := s[1..];
      assert Matches(rest, tail) <==> |tail| == 9 && forall i :: 0 <= i < 9 ==> IsDigit(tail[i]) by {
        if |tail| >= 9 {
          assert Matches(rest[1..], tail[9..]) <==> |tail| == 9;
        }
      }
      if IsIndianPhone(s) {
        forall i | 0 <= i < 9 ensures IsDigit(tail[i]) {
          assert tail[i] == s[i + 1];
        }
      }
      if Matches(IndianPhonePattern, s) {
        forall i | 0 <= i < |s| ensures IsDigit(s[i]) {
          if i > 0 { assert s[i] == tail[i - 1]; }
        }
      }
    }
  }

  /** `INDIAN_PHONE_REGEX.test(s)` */
  function TestPhone(s: string): (ok: bool)
    ensures ok <==> IsIndianPhone(s)
  {
    PhonePatternMeaning(s);
    Matches(IndianPhonePattern, s)
  }

  lemma PhoneExamples()
    ensures TestPhone("9876543210")
    ensures !TestPhone("5876543210")   // first digit 0-5
    ensures !TestPhone("987654321")    // nine digits
    ensures !TestPhone("98765432101")  // eleven digits
    ensures !TestPhone("+919876543210")
  {
    assert IsDigit('+') == false;
  }

  /** MOCK_PROPERTIES. Both entries take their creation time from the moment
      the module is loaded, given here as `loadedAt`. */
  function MockProperties(loadedAt: int): seq<Property>
  {
    [ Property("p1", "u2", Room, Single, 8500,
               "Viman Nagar, Pune, Maharashtra 411014",
               Coordinates(18.5679, 73.9143),
               ["https://picsum.photos/seed/p1/600/400", "https://picsum.photos/seed/p1b/600/400"],
               "Cozy single room for students near Symbiosis.",
               loadedAt, true),
      Property("p2", "u2", HostelPG, Double, 6500,
               "Koramangala 4th Block, Bengaluru, Karnataka 560034",
               Coordinates(12.9339, 77.6231),
               ["https://picsum.photos/seed/p2/600/400"],
               "Affordable double sharing PG for boys.",
               loadedAt, false) ]
  }

  /** The seed holds exactly two listings, `p1` and `p2`, both owned by `u2`:
      a verified room at 8500 and an unverified hostel/PG at 6500. */
  lemma SeedContents(loadedAt: int)
    ensures var seed := MockProperties(loadedAt);
      && |seed| == 2
      && seed[0].id == "p1" && seed[1].id == "p2"
      && seed[0].ownerId == "u2" && seed[1].ownerId == "u2"
      && seed[0].propertyType == Room && seed[0].rent == 8500 && seed[0].verified
      && seed[1].propertyType == HostelPG && seed[1].rent == 6500 && !seed[1].verified
  {
  }
}
