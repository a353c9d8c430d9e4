/**
 * Address matching of src/_workflows/businessEnrichment/addressMatcher.ts:
 * the street part of an address, the word-overlap test between two streets,
 * and the choice of the first Google Places result whose street matches.
 */
module AddressMatcher {
  import opened Wrappers
  import opened Values
  import opened Strings
  import opened Arrays

  /** The text before the first comma, or all of it when there is none. */
  function BeforeComma(s: string): (r: string)
    ensures ',' !in r && StartsWith(s, r)
    ensures ',' in s ==> |r| < |s| && s[|r|] == ','
  {
    if ',' in s then s[..FirstIndexOf(s, ',')] else s
  }

  /** A text that occurs in a text without commas has none. */
  lemma NoCommaInside(s: string, r: string)
    requires ',' !in s && Contains(s, r)
    ensures ',' !in r
  {
    var i :| 0 <= i <= |s| - |r| && OccursAt(s, r, i);
    forall j | 0 <= j < |r| ensures r[j] != ',' {
      assert r[j] == s[i + j];
    }
  }

  /**
   * `extractStreet`: the lower-cased address up to its first comma, trimmed.
   * The pattern `^([^,]+)` does not match an empty address or one starting
   * with a comma; both give ''.
   */
  function ExtractStreet(address: string): (r: string)
    ensures ',' !in r
    ensures r == [] || (!IsSpace(r[0]) && !IsSpace(r[|r| - 1]))
    ensures address == [] || address[0] == ',' ==> r == []
  {
    var lower := ToLower(address);
    var head := BeforeComma(lower);
    if head == [] then []
    else
      var r := Trim(head);
      NoCommaInside(head, r);
      r
  }

  /** The words of a street longer than two characters, in order. */
  function LongWords(words: seq<string>): seq<string>
  {
    if words == [] then []
    else (if |words[0]| > 2 then [words[0]] else []) + LongWords(words[1..])
  }

  lemma {:induction false} LongWordsMember(words: seq<string>, w: string)
    ensures w in LongWords(words) <==> w in words && |w| > 2
  {
    if words != [] {
      LongWordsMember(words[1..], w);
      assert words == [words[0]] + words[1..];
    }
  }

  /** `street.split(' ').filter(word => word.length > 2)` */
  function Significant(street: string): seq<string>
  {
    LongWords(Split(street, ' '))
  }

  /** One word contains the other. */
  predicate Overlap(a: string, b: string)
  {
    Contains(a, b) || Contains(b, a)
  }

  /** `areStreetsSimilar`: both streets non-empty and some significant word of one overlaps some significant word of the other. */
  predicate Similar(companyStreet: string, placeStreet: string)
  {
    companyStreet != [] && placeStreet != [] && AnyOverlap(Significant(companyStreet), Significant(placeStreet))
  }

  /** Some word of the first list overlaps some word of the second. */
  predicate AnyOverlap(cw: seq<string>, pw: seq<string>)
  {
    exists i, j | 0 <= i < |cw| && 0 <= j < |pw| :: Overlap(cw[i], pw[j])
  }

  /** The nested loops of `areStreetsSimilar`, stopping at the first overlapping pair. */
  method AreStreetsSimilar(companyStreet: string, placeStreet: string) returns (similar: bool)
    ensures similar == Similar(companyStreet, placeStreet)
  {
    if companyStreet == [] || placeStreet == [] {
      return false;
    }
    var companyWords := Significant(companyStreet);
    var placeWords := Significant(placeStreet);
    for i := 0 to |companyWords|
      invariant forall i', j | 0 <= i' < i && 0 <= j < |placeWords| :: !Overlap(companyWords[i'], placeWords[j])
    {
      for j := 0 to |placeWords|
        invariant forall j' | 0 <= j' < j :: !Overlap(companyWords[i], placeWords[j'])
      {
        if Contains(companyWords[i], placeWords[j]) || Contains(placeWords[j], companyWords[i]) {
          assert Overlap(companyWords[i], placeWords[j]);
          return true;
        }
      }
    }
    return false;
  }

  /** A Google Places search result. */
  datatype PlaceResult = PlaceResult(title: string, address: string, rating: Value, ratingCount: Value,
                                     website: string, phoneNumber: string)

  /** The place as the workflow stores it. */
  datatype GooglePlace = GooglePlace(title: string, address: string, rating: Value, reviewsCount: Value,
                                     website: string, phone: string)

  /** The test `find` applies: the place has an address and its street is similar to the company's. */
  predicate Matches(companyStreet: string, place: PlaceResult)
  {
    place.address != [] && Similar(companyStreet, ExtractStreet(place.address))
  }

  /** `findMatchingPlace`: the first matching place with its rating count and phone renamed, or `undefined`. */
  function FindMatchingPlace(companyAddress: string, places: seq<PlaceResult>): (r: Option<GooglePlace>)
    ensures r.None? <==> forall i | 0 <= i < |places| :: !Matches(ExtractStreet(companyAddress), places[i])
    ensures r.Some? ==> exists i | 0 <= i < |places| ::
      (FirstMatching(ExtractStreet(companyAddress), places, i) && r.value == AsGooglePlace(places[i]))
  {
    var street := ExtractStreet(companyAddress);
    match FindIndex(places, p => Matches(street, p), 0)
    case None => None
    case Some(i) =>
      assert FirstMatching(street, places, i);
      Some(AsGooglePlace(places[i]))
  }

  /** Place `i` matches and none before it does. */
  predicate FirstMatching(street: string, places: seq<PlaceResult>, i: int)
  {
    0 <= i < |places| && Matches(street, places[i]) && forall j | 0 <= j < i :: !Matches(street, places[j])
  }

  /** The fields the workflow keeps, with the rating count and phone renamed. */
  function AsGooglePlace(p: PlaceResult): GooglePlace
  {
    GooglePlace(p.title, p.address, p.rating, p.ratingCount, p.website, p.phoneNumber)
  }

  // ---------------------------------------------------------------- properties

  /** Overlap does not depend on which street is the company's. */
  lemma SimilarSymmetric(a: string, b: string)
    ensures Similar(a, b) <==> Similar(b, a)
  {
    if Similar(a, b) {
      var cw, pw := Significant(a), Significant(b);
      var i, j :| 0 <= i < |cw| && 0 <= j < |pw| && Overlap(cw[i], pw[j]);
      assert Overlap(pw[j], cw[i]);
    }
    if Similar(b, a) {
      var cw, pw := Significant(b), Significant(a);
      var i, j :| 0 <= i < |cw| && 0 <= j < |pw| && Overlap(cw[i], pw[j]);
      assert Overlap(pw[j], cw[i]);
    }
  }

  /** A street whose words are all at most two characters long matches nothing. */
  lemma ShortWordsNeverMatch(a: string, b: string)
    requires forall w | w in Split(a, ' ') :: |w| <= 2
    ensures !Similar(a, b)
  {
    var ws := Significant(a);
    if ws != [] {
      LongWordsMember(Split(a, ' '), ws[0]);
    }
  }

  /** Two streets sharing a significant word match. */
  lemma SharedWordMatches(a: string, b: string, w: string)
    requires a != [] && b != [] && |w| > 2 && w in Split(a, ' ') && w in Split(b, ' ')
    ensures Similar(a, b)
  {
    var cw, pw := Significant(a), Significant(b);
    LongWordsMember(Split(a, ' '), w);
    LongWordsMember(Split(b, ' '), w);
    var i :| 0 <= i < |cw| && cw[i] == w;
    var j :| 0 <= j < |pw| && pw[j] == w;
    ContainsItself(w);
    assert Overlap(cw[i], pw[j]);
  }
}
