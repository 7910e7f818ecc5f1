/** Value types shared by the HomeFix screens (src/types/index.ts, src/types/supabase.ts)
    and the two string operations every search box uses: `toLowerCase` and `includes`. */
module Common {

  datatype Option<T> = None | Some(value: T)

  /** A JavaScript `string | undefined` value is truthy when present and non-empty. */
  predicate Truthy(s: Option<string>) {
    s.Some? && s.value != ""
  }

  datatype UserRole = Admin | Provider | Client

  datatype ServiceCategory = Plumbing | Electrical | Cleaning | Carpentry | Painting | Gardening

  datatype BookingStatus = Pending | Confirmed | Completed | Cancelled

  datatype DayOfWeek = Monday | Tuesday | Wednesday | Thursday | Friday | Saturday | Sunday

  /** The string each role has in the backend and in the URL. */
  function RoleName(r: UserRole): string {
    match r
    case Admin => "admin"
    case Provider => "provider"
    case Client => "client"
  }

  function CategoryName(c: ServiceCategory): string {
    match c
    case Plumbing => "plumbing"
    case Electrical => "electrical"
    case Cleaning => "cleaning"
    case Carpentry => "carpentry"
    case Painting => "painting"
    case Gardening => "gardening"
  }

  /** A catalog entry as the mock catalogs fill it (every entry has a description). */
  datatype Service = Service(
    id: string,
    name: string,
    category: ServiceCategory,
    description: string,
    price: real,
    duration: int)

  /** `services.find((s) => s.id === id)`: the first entry with that id, if any. */
  function FindService(services: seq<Service>, id: string): (r: Option<Service>)
    ensures r.None? <==> forall k :: 0 <= k < |services| ==> services[k].id != id
    ensures r.Some? ==> r.value.id == id
    ensures r.Some? ==> exists k :: 0 <= k < |services| && services[k] == r.value &&
                          forall j :: 0 <= j < k ==> services[j].id != id
    decreases |services|
  {
    if services == [] then None
    else if services[0].id == id then Some(services[0])
    else
      var r := FindService(services[1..], id);
      assert forall k :: 1 <= k < |services| ==> services[k] == services[1..][k - 1];
      r
  }

  /** `String.prototype.toLowerCase` restricted to ASCII letters. */
  function LowerChar(c: char): char {
    if 'A' <= c <= 'Z' then (c as int + 32) as char else c
  }

  function Lower(s: string): string {
    seq(|s|, i requires 0 <= i < |s| => LowerChar(s[i]))
  }

  /** `hay.includes(needle)`, defined by scanning hay from the left. */
  predicate Contains(hay: string, needle: string)
    decreases |hay|
  {
    needle <= hay || (hay != [] && Contains(hay[1..], needle))
  }

  /** needle occurs in hay starting at index i. */
  predicate OccursAt(hay: string, needle: string, i: int) {
    0 <= i && i + |needle| <= |hay| && hay[i..i + |needle|] == needle
  }

  /** The scan agrees with the positional reading of `includes`: needle occurs at some index. */
  lemma ContainsIffOccurs(hay: string, needle: string)
    ensures Contains(hay, needle) <==> exists i :: OccursAt(hay, needle, i)
  {
    if Contains(hay, needle) {
      var i := ContainsWitness(hay, needle);
    }
    if exists i :: OccursAt(hay, needle, i) {
      var i :| OccursAt(hay, needle, i);
      OccursContained(hay, needle, i);
    }
  }

  lemma {:induction false} ContainsWitness(hay: string, needle: string) returns (i: int)
    requires Contains(hay, needle)
    ensures OccursAt(hay, needle, i)
    decreases |hay|
  {
    if needle <= hay {
      i := 0;
      assert hay[0..0 + |needle|] == hay[..|needle|];
    } else {
      var j := ContainsWitness(hay[1..], needle);
      i := j + 1;
      assert hay[i..i + |needle|] == hay[1..][j..j + |needle|];
    }
  }

  lemma {:induction false} OccursContained(hay: string, needle: string, i: int)
    requires OccursAt(hay, needle, i)
    ensures Contains(hay, needle)
    decreases i
  {
    if i == 0 {
      assert hay[..|needle|] == hay[0..0 + |needle|];
    } else {
      assert hay[1..][i - 1..i - 1 + |needle|] == hay[i..i + |needle|];
      OccursContained(hay[1..], needle, i - 1);
    }
  }

  /** `hay.toLowerCase().includes(term.toLowerCase())`: the case-insensitive search. */
  predicate Includes(hay: string, term: string) {
    Contains(Lower(hay), Lower(term))
  }

  /** The empty search term is found in every string. */
  lemma EmptyTermIncluded(hay: string)
    ensures Includes(hay, "")
  {
    assert Lower("") == "";
  }

  /** Decimal rendering of a natural number, as template literals print it. */
  function NatToString(n: nat): string
    decreases n
  {
    var d := ["0", "1", "2", "3", "4", "5", "6", "7", "8", "9"][n % 10];
    if n < 10 then d else NatToString(n / 10) + d
  }

  /** `{duration} hour{duration > 1 ? 's' : ''}`: the unit after a service's duration. */
  function DurationUnit(duration: int): (unit: string)
    ensures unit == "hours" <==> duration > 1
    ensures unit == "hour" <==> duration <= 1
  {
    "hour" + (if duration > 1 then "s" else "")
  }
}
