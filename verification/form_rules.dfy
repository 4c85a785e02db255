/**
  The complaint form's five text fields and the rules both front ends check them
  against: a subject is chosen, the name has two characters, the e-mail is absent
  or looks like an address, the phone number has nine or ten digits, and the
  complaint has five characters. Both copies sanitise a raw value by trimming it.
*/
module FormRules {
  import opened Wrappers
  import opened JsStrings

  /** The inputs of the form, in the order the validators examine them. */
  datatype Field = Subject | Name | Email | Phone | Complaint

  function Rank(f: Field): nat {
    match f
    case Subject => 0
    case Name => 1
    case Email => 2
    case Phone => 3
    case Complaint => 4
  }

  datatype FormData = FormData(subject: string, name: string, email: string, phone: string, complaint: string)

  /** The form as it is first shown and after a successful submission. */
  const DefaultForm := FormData("", "", "", "", "")

  /** `String(value || "").trim()`. None stands for an absent value (undefined or null);
      the empty string, also falsy, becomes "" either way. */
  function Sanitize(value: Option<string>): (r: string)
    ensures value.None? ==> r == ""
    ensures IsTrimmed(r)
    ensures value.Some? ==> exists a, b :: CutsOnlyWhitespace(value.value, a, b) && r == value.value[a..b]
  {
    match value
    case None => ""
    case Some(s) => Trim(s)
  }

  /** Sanitising a sanitised value changes nothing. */
  lemma SanitizeIdempotent(value: Option<string>)
    ensures Sanitize(Some(Sanitize(value))) == Sanitize(value)
  {
    if value.Some? {
      TrimIdempotent(value.value);
    }
  }

  /** The regular expression `^\S+@\S+\.\S+$`, read off its structure: s is a
      non-empty run of non-space characters, an '@' at index i, another non-empty run,
      a '.' at index j and a last non-empty run. */
  predicate EmailSplit(s: string, i: int, j: int) {
    && 0 < i && i + 1 < j && j + 1 < |s|
    && s[i] == '@' && s[j] == '.'
    && NoWhitespace(s[..i]) && NoWhitespace(s[i + 1..j]) && NoWhitespace(s[j + 1..])
  }

  ghost predicate MatchesEmailPattern(s: string) {
    exists i, j :: EmailSplit(s, i, j)
  }

  /** A decision procedure for the e-mail pattern: no white space anywhere, and a '.'
      with at least one character on each side somewhere after the first '@' that
      has something before it. */
  function EmailTest(s: string): (b: bool) {
    && NoWhitespace(s)
    && match FindFrom(s, '@', 1)
       case None => false
       case Some(i) => i + 3 <= |s| && '.' in s[i + 2..|s| - 1]
  }

  lemma EmailTestIsPattern(s: string)
    ensures EmailTest(s) <==> MatchesEmailPattern(s)
  {
    if EmailTest(s) {
      var i := FindFrom(s, '@', 1).value;
      var m :| 0 <= m < |s[i + 2..|s| - 1]| && s[i + 2..|s| - 1][m] == '.';
      var j := i + 2 + m;
      assert s[j] == '.';
      assert EmailSplit(s, i, j);
    }
    if MatchesEmailPattern(s) {
      var i, j :| EmailSplit(s, i, j);
      forall k | 0 <= k < |s| ensures !IsWhitespace(s[k]) {
        if k < i {
          assert s[..i][k] == s[k];
        } else if i < k < j {
          assert s[i + 1..j][k - i - 1] == s[k];
        } else if j < k {
          assert s[j + 1..][k - j - 1] == s[k];
        }
      }
      var first := FindFrom(s, '@', 1).value;
      assert s[first + 2..|s| - 1][j - first - 2] == '.';
    }
  }

  /** `/^[0-9]{9,10}$/.test(t)`. */
  predicate NineOrTenDigits(t: string) {
    9 <= |t| <= 10 && forall k :: 0 <= k < |t| ==> IsDigit(t[k])
  }

  /** The phone rule: the digits of the phone number, on their own, are nine or ten. */
  predicate PhoneRule(phone: string) {
    NineOrTenDigits(DigitsOf(phone))
  }

  /** The phone rule only counts digits. */
  lemma PhoneRuleCountsDigits(phone: string)
    ensures PhoneRule(phone) <==> 9 <= |DigitsOf(phone)| <= 10
  {
  }

  /** Separators, spaces or any other non-digit can be typed into the phone number
      anywhere without changing whether it passes. */
  lemma PhoneIgnoresNonDigits(a: string, c: char, b: string)
    requires !IsDigit(c)
    ensures PhoneRule(a + [c] + b) == PhoneRule(a + b)
  {
    InsertNonDigit(a, c, b);
  }

  /** Whether field f of d passes its rule. Lengths are JavaScript lengths. */
  ghost predicate RuleHolds(d: FormData, f: Field) {
    match f
    case Subject => d.subject != ""
    case Name => Utf16Length(d.name) >= 2
    case Email => d.email == "" || MatchesEmailPattern(d.email)
    case Phone => PhoneRule(d.phone)
    case Complaint => Utf16Length(d.complaint) >= 5
  }

  /** f is the first field, in validation order, whose rule fails. */
  ghost predicate FirstFailing(d: FormData, f: Field) {
    && !RuleHolds(d, f)
    && forall g :: Rank(g) < Rank(f) ==> RuleHolds(d, g)
  }

  /** At most one field is the first to fail. */
  lemma FirstFailingUnique(d: FormData, f: Field, g: Field)
    requires FirstFailing(d, f) && FirstFailing(d, g)
    ensures f == g
  {
  }

  /** The message each rule reports. */
  function Message(f: Field): string {
    match f
    case Subject => "กรุณาเลือกหัวข้อ"
    case Name => "กรอกชื่อให้ครบ"
    case Email => "อีเมลไม่ถูกต้อง"
    case Phone => "เบอร์โทรไม่ถูกต้อง"
    case Complaint => "รายละเอียดสั้นเกินไป"
  }
}
