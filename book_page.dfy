/**
 * The logic of the booking page (src/app/frontend/book/page.jsx): the slot
 * grid generator, the selection handlers and the form validator. The
 * component's React state hooks become the fields of a class; a state that
 * holds `null` or "" is written "" here, since the page only tests it for
 * truthiness.
 */
module BookPage {

  datatype Option<T> = None | Some(value: T)

  /** The keys `validateForm` may record in its error dictionary. */
  datatype FormField = DateField | SlotField | GuestCountField | NameField | ContactField

  /** The number of labels the slot grid holds. */
  const SlotCount := 15

  // ---------------------------------------------------------------------
  // Decimal text of a number, as a template literal renders it
  // ---------------------------------------------------------------------

  function Digit(d: nat): (c: char)
    requires d < 10
    ensures '0' <= c <= '9' && c as int - '0' as int == d
  {
    ('0' as int + d) as char
  }

  /** `${n}` for a natural number: its decimal digits, most significant first. */
  function DecimalText(n: nat): (s: string)
    ensures 1 <= |s|
  {
    if n < 10 then [Digit(n)] else DecimalText(n / 10) + [Digit(n % 10)]
  }

  /** The number a string of decimal digits denotes. */
  function DecimalValue(s: string): int
  {
    if s == [] then 0 else DecimalValue(s[..|s| - 1]) * 10 + (s[|s| - 1] as int - '0' as int)
  }

  /** Reading back the decimal text of n gives n. */
  lemma {:induction false} DecimalRoundTrip(n: nat)
    ensures DecimalValue(DecimalText(n)) == n
  {
    var s := DecimalText(n);
    if n >= 10 {
      assert s[..|s| - 1] == DecimalText(n / 10);
      DecimalRoundTrip(n / 10);
    }
  }

  /** Distinct numbers have distinct decimal texts. */
  lemma DecimalTextInjective(a: nat, b: nat)
    ensures DecimalText(a) == DecimalText(b) ==> a == b
  {
    DecimalRoundTrip(a);
    DecimalRoundTrip(b);
  }

  // ---------------------------------------------------------------------
  // The slot grid
  // ---------------------------------------------------------------------

  /** The text the loop renders for one hour and period: `${hour}:00 ${period}`. */
  function Label(hour: nat, period: string): string
  {
    DecimalText(hour) + ":00 " + period
  }

  /** The hour shown by label i: 12 first, then counting up and wrapping from 13 to 1. */
  function SlotHour(i: nat): (h: nat)
    ensures 1 <= h <= 12
  {
    (i + 11) % 12 + 1
  }

  /** How often the hour has wrapped from 13 back to 1 before label i is rendered. */
  function Wraps(i: nat): nat
  {
    (i + 11) / 12
  }

  /** The period of label i: it starts as AM and flips at every wrap. */
  function SlotPeriod(i: nat): (p: string)
    ensures p == "AM" || p == "PM"
  {
    if Wraps(i) % 2 == 0 then "AM" else "PM"
  }

  /** Label i of the grid, by the generator's rule. */
  function SlotLabel(i: nat): string
  {
    Label(SlotHour(i), SlotPeriod(i))
  }

  /** A label of the form "<h>:00 AM" or "<h>:00 PM" with h in 1..12. */
  ghost predicate IsSlotLabel(s: string)
  {
    exists h: nat :: 1 <= h <= 12 && (s == Label(h, "AM") || s == Label(h, "PM"))
  }

  /**
   * `generateTimeSlots`: fifteen labels, starting at 12 AM, one hour apart,
   * with the period flipping when the hour wraps from 12 to 1.
   */
  method GenerateTimeSlots() returns (slots: seq<string>)
    ensures |slots| == SlotCount
    ensures forall i :: 0 <= i < |slots| ==> slots[i] == SlotLabel(i) && IsSlotLabel(slots[i])
  {
    slots := [];
    var hour: int := 12;
    var period := "AM";
    for i := 0 to SlotCount
      invariant |slots| == i
      invariant forall k :: 0 <= k < i ==> slots[k] == SlotLabel(k)
      invariant hour == SlotHour(i) && period == SlotPeriod(i)
    {
      slots := slots + [Label(hour, period)];
      SlotStep(i);
      hour := hour + 1;
      if hour == 13 {
        hour := 1;
        period := if period == "AM" then "PM" else "AM";
      }
    }
    forall i | 0 <= i < |slots|
      ensures IsSlotLabel(slots[i])
    {
      SlotLabelWellFormed(i);
    }
  }

  /** One turn of the generator's loop: the hour goes up by one, and on reaching 13 wraps to 1 and flips the period. */
  lemma SlotStep(i: nat)
    ensures SlotHour(i) + 1 == 13 ==> SlotHour(i + 1) == 1 && SlotPeriod(i + 1) != SlotPeriod(i)
    ensures SlotHour(i) + 1 != 13 ==> SlotHour(i + 1) == SlotHour(i) + 1 && SlotPeriod(i + 1) == SlotPeriod(i)
  {
    if (i + 11) % 12 == 11 {
      assert Wraps(i + 1) == Wraps(i) + 1;
    } else {
      assert Wraps(i + 1) == Wraps(i);
    }
  }

  /** Every label of the grid has the form "<h>:00 AM" or "<h>:00 PM" with h in 1..12. */
  lemma SlotLabelWellFormed(i: nat)
    ensures IsSlotLabel(SlotLabel(i))
  {
    var h := SlotHour(i);
    assert SlotLabel(i) == Label(h, "AM") || SlotLabel(i) == Label(h, "PM");
  }

  /**
   * The shape of the grid: label i shows hour 12 at index 0, i for 1..12
   * and i - 12 for 13 and 14; it is AM at index 0, PM for 1..12 and AM
   * again for 13 and 14.
   */
  lemma SlotGridShape(i: nat)
    requires i < SlotCount
    ensures SlotHour(i) == if i == 0 then 12 else if i <= 12 then i else i - 12
    ensures SlotPeriod(i) == if i == 0 || i >= 13 then "AM" else "PM"
  {
  }

  /** Equal labels come from equal hours and equal periods. */
  lemma LabelInjective(h1: nat, p1: string, h2: nat, p2: string)
    requires |p1| == 2 && |p2| == 2
    ensures Label(h1, p1) == Label(h2, p2) ==> h1 == h2 && p1 == p2
  {
    if Label(h1, p1) == Label(h2, p2) {
      var s := Label(h1, p1);
      assert DecimalText(h1) == s[..|s| - 6] == DecimalText(h2);
      assert p1 == s[|s| - 2..] == p2;
      DecimalTextInjective(h1, h2);
    }
  }

  /** The fifteen labels of the grid are pairwise distinct. */
  lemma SlotLabelsDistinct(i: nat, j: nat)
    requires i < j < SlotCount
    ensures SlotLabel(i) != SlotLabel(j)
  {
    SlotGridShape(i);
    SlotGridShape(j);
    LabelInjective(SlotHour(i), SlotPeriod(i), SlotHour(j), SlotPeriod(j));
  }

  // ---------------------------------------------------------------------
  // Text checks used by the form validator
  // ---------------------------------------------------------------------

  /** The whitespace `trim` removes, restricted to a fixed set of characters. */
  predicate IsWhitespace(c: char)
  {
    c == ' ' || c == '\t' || c == '\n' || c == '\r' || c == '\U{000B}' || c == '\U{000C}' ||
    c == '\U{00A0}' || c == '\U{FEFF}' || c == '\U{2028}' || c == '\U{2029}'
  }

  /** Every character of s is whitespace (the empty string included). */
  predicate IsBlank(s: string)
  {
    forall k {:trigger IsWhitespace(s[k])} :: 0 <= k < |s| ==> IsWhitespace(s[k])
  }

  /** The index of the first non-whitespace character at or after i, or |s|. */
  function SkipLeading(s: string, i: nat): (n: nat)
    requires i <= |s|
    ensures i <= n <= |s|
    ensures forall k {:trigger IsWhitespace(s[k])} :: i <= k < n ==> IsWhitespace(s[k])
    ensures n < |s| ==> !IsWhitespace(s[n])
    decreases |s| - i
  {
    if i < |s| && IsWhitespace(s[i]) then SkipLeading(s, i + 1) else i
  }

  /** The end of s[lo..j] once its trailing whitespace is dropped. */
  function SkipTrailing(s: string, lo: nat, j: nat): (n: nat)
    requires lo <= j <= |s|
    ensures lo <= n <= j
    ensures forall k {:trigger IsWhitespace(s[k])} :: n <= k < j ==> IsWhitespace(s[k])
    ensures n > lo ==> !IsWhitespace(s[n - 1])
    decreases j
  {
    if j > lo && IsWhitespace(s[j - 1]) then SkipTrailing(s, lo, j - 1) else j
  }

  /** `s.trim()`: a slice of s that neither starts nor ends with whitespace. */
  function Trim(s: string): (r: string)
    ensures |r| <= |s|
    ensures exists a, b :: 0 <= a <= b <= |s| && r == s[a..b] && IsBlank(s[..a]) && IsBlank(s[b..])
    ensures r != [] ==> !IsWhitespace(r[0]) && !IsWhitespace(r[|r| - 1])
  {
    var start := SkipLeading(s, 0);
    var end := SkipTrailing(s, start, |s|);
    assert IsBlank(s[..start]) by {
      forall k | 0 <= k < start
        ensures IsWhitespace(s[..start][k])
      {
        assert s[..start][k] == s[k];
      }
    }
    assert IsBlank(s[end..]) by {
      forall k | 0 <= k < |s| - end
        ensures IsWhitespace(s[end..][k])
      {
        assert s[end..][k] == s[end + k];
      }
    }
    s[start..end]
  }

  /** A name is empty after trimming exactly when all of it is whitespace. */
  lemma TrimEmptyIffBlank(s: string)
    ensures Trim(s) == "" <==> IsBlank(s)
  {
    var start := SkipLeading(s, 0);
    if start < |s| {
      assert SkipTrailing(s, start, |s|) > start;
    }
  }

  /** `\d` in a JavaScript regular expression: the ASCII digits only. */
  predicate IsAsciiDigit(c: char)
  {
    '0' <= c <= '9'
  }

  /** Every character of s is an ASCII digit. */
  predicate AllAsciiDigits(s: string)
  {
    forall k {:trigger IsAsciiDigit(s[k])} :: 0 <= k < |s| ==> IsAsciiDigit(s[k])
  }

  /** Whether the pattern `^\d{n}$` matches the whole of s. */
  function MatchesDigits(s: string, n: nat): (r: bool)
    ensures r <==> |s| == n && AllAsciiDigits(s)
  {
    if n == 0 then s == []
    else if s == [] || !IsAsciiDigit(s[0]) then false
    else
      var rest := MatchesDigits(s[1..], n - 1);
      assert forall k :: 1 <= k < |s| ==> s[k] == s[1..][k - 1];
      rest
  }

  const DateMessage := "Please select a date."
  const SlotMessage := "Please select a time slot."
  const GuestCountMessage := "Please enter a valid number of guests."
  const NameMessage := "Name is required."
  const ContactMessage := "Please enter a valid 10-digit phone number."

  /** The message `validateForm` records for each field. */
  function ErrorMessage(f: FormField): string
  {
    match f
    case DateField => DateMessage
    case SlotField => SlotMessage
    case GuestCountField => GuestCountMessage
    case NameField => NameMessage
    case ContactField => ContactMessage
  }

  /**
   * The body of `validateForm`: one entry per failing field, each carrying
   * that field's message.
   */
  method CollectValidationErrors(date: string, slot: string, guestCount: Option<int>, name: string, contact: string)
    returns (validationErrors: map<FormField, string>)
    ensures DateField in validationErrors <==> date == ""
    ensures SlotField in validationErrors <==> slot == ""
    ensures GuestCountField in validationErrors <==> guestCount.None? || guestCount.value <= 0
    ensures NameField in validationErrors <==> IsBlank(name)
    ensures ContactField in validationErrors <==> !(|contact| == 10 && AllAsciiDigits(contact))
    ensures DateField in validationErrors ==> validationErrors[DateField] == DateMessage
    ensures SlotField in validationErrors ==> validationErrors[SlotField] == SlotMessage
    ensures GuestCountField in validationErrors ==> validationErrors[GuestCountField] == GuestCountMessage
    ensures NameField in validationErrors ==> validationErrors[NameField] == NameMessage
    ensures ContactField in validationErrors ==> validationErrors[ContactField] == ContactMessage
  {
    validationErrors := map[];
    if date == "" {
      validationErrors := validationErrors[DateField := DateMessage];
    }
    if slot == "" {
      validationErrors := validationErrors[SlotField := SlotMessage];
    }
    if guestCount.None? || guestCount.value <= 0 {
      validationErrors := validationErrors[GuestCountField := GuestCountMessage];
    }
    TrimEmptyIffBlank(name);
    if Trim(name) == "" {
      validationErrors := validationErrors[NameField := NameMessage];
    }
    if !MatchesDigits(contact, 10) {
      validationErrors := validationErrors[ContactField := ContactMessage];
    }
  }

  // ---------------------------------------------------------------------
  // The page's state and handlers
  // ---------------------------------------------------------------------

  /**
   * The state hooks of the booking page. The inline `onChange` setters of
   * the guest, name and contact inputs assign `guestCount`, `name` and
   * `contact` directly; `guestCount` is None while the input is empty.
   */
  class BookingForm {
    var selectedDate: string
    var timeSlots: seq<string>
    var selectedSlot: string
    var guestCount: Option<int>
    var name: string
    var contact: string
    var errors: map<FormField, string>
    var unavailableSlots: seq<string>

    constructor ()
      ensures selectedDate == "" && timeSlots == [] && selectedSlot == ""
      ensures guestCount == None && name == "" && contact == ""
      ensures errors == map[] && unavailableSlots == []
    {
      selectedDate := "";
      timeSlots := [];
      selectedSlot := "";
      guestCount := None;
      name := "";
      contact := "";
      errors := map[];
      unavailableSlots := [];
    }

    /**
     * `handleDateChange`, up to the availability request: records the date,
     * lays out the full grid and clears the selected slot.
     */
    method HandleDateChange(selected: string)
      modifies this`selectedDate, this`timeSlots, this`selectedSlot
      ensures selectedDate == selected && selectedSlot == ""
      ensures |timeSlots| == SlotCount && forall i :: 0 <= i < SlotCount ==> timeSlots[i] == SlotLabel(i)
    {
      selectedDate := selected;
      timeSlots := GenerateTimeSlots();
      selectedSlot := "";
    }

    /**
     * The answer to the availability request of `handleDateChange`: the
     * listed slots, or none when the answer carries no list.
     */
    method ReceiveUnavailableSlots(response: Option<seq<string>>)
      modifies this`unavailableSlots
      ensures unavailableSlots == if response.Some? then response.value else []
    {
      unavailableSlots := if response.Some? then response.value else [];
    }

    /** `handleSlotClick`: a slot already booked is refused and the selection kept. */
    method HandleSlotClick(slot: string)
      modifies this`selectedSlot
      ensures slot in unavailableSlots ==> selectedSlot == old(selectedSlot)
      ensures slot !in unavailableSlots ==> selectedSlot == slot
    {
      if slot !in unavailableSlots {
        selectedSlot := slot;
      }
    }

    /**
     * `validateForm`: records the failing fields in `errors` and succeeds
     * exactly when none failed.
     */
    method ValidateForm() returns (ok: bool)
      modifies this`errors
      ensures DateField in errors <==> selectedDate == ""
      ensures SlotField in errors <==> selectedSlot == ""
      ensures GuestCountField in errors <==> guestCount.None? || guestCount.value <= 0
      ensures NameField in errors <==> IsBlank(name)
      ensures ContactField in errors <==> !(|contact| == 10 && AllAsciiDigits(contact))
      ensures forall f :: f in errors ==> errors[f] == ErrorMessage(f)
      ensures ok <==> errors == map[]
    {
      var validationErrors := CollectValidationErrors(selectedDate, selectedSlot, guestCount, name, contact);
      errors := validationErrors;
      ok := |validationErrors.Keys| == 0;
    }
  }
}
