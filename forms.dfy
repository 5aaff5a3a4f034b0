/**
 * The contact-form check of the frontend (`validateContactForm` and
 * `isValidEmail`, the same code in Frontend/script.js and script.js): the
 * rules in their order, with the first one that fails reported.
 */
module Forms {
  import opened Wrappers
  import opened Text

  /** The submitted form: a field the form did not send is `None`. */
  datatype ContactForm = ContactForm(
    name: Option<string>,
    email: Option<string>,
    subject: Option<string>,
    message: Option<string>)

  /** JavaScript truthiness of a form field: present and not the empty string. */
  predicate Given(field: Option<string>)
  {
    field.Some? && field.value != ""
  }

  /** A character the regex class `[^\s@]` accepts. */
  predicate Plain(c: char)
  {
    !JsSpace(c) && c != '@'
  }

  /**
   * The regex's split of `s`: a run of plain characters before the `@` at
   * `i`, a run between it and the `.` at `j`, and a run after that, each
   * non-empty.
   */
  predicate RegexSplit(s: string, i: int, j: int)
  {
    && 0 < i && i + 1 < j && j + 1 < |s| && s[i] == '@' && s[j] == '.'
    && (forall k :: 0 <= k < i ==> Plain(s[k]))
    && (forall k :: i < k < j ==> Plain(s[k]))
    && (forall k :: j < k < |s| ==> Plain(s[k]))
  }

  /** `/^[^\s@]+@[^\s@]+\.[^\s@]+$/.test(s)`: the regex can split `s`. */
  predicate IsValidEmail(s: string)
  {
    exists i, j | 0 <= i < |s| && 0 <= j < |s| :: RegexSplit(s, i, j)
  }

  /** The number of occurrences of `c` in `s`. */
  function Occurrences(s: string, c: char): (n: nat)
    ensures n <= |s|
    ensures n == 0 <==> forall k :: 0 <= k < |s| ==> s[k] != c
  {
    if s == [] then 0
    else
      var rest := Occurrences(s[1..], c);
      assert forall k :: 1 <= k < |s| ==> s[k] == s[1..][k - 1];
      (if s[0] == c then 1 else 0) + rest
  }

  lemma {:induction false} OccurrencesConcat(a: string, b: string, c: char)
    ensures Occurrences(a + b, c) == Occurrences(a, c) + Occurrences(b, c)
  {
    if a == [] {
      assert a + b == b;
    } else {
      assert (a + b)[1..] == a[1..] + b;
      OccurrencesConcat(a[1..], b, c);
    }
  }

  /** `c` occurs once in `s`, at `i`, exactly when no other position holds it. */
  lemma OccursOnceAt(s: string, c: char, i: nat)
    requires i < |s| && s[i] == c
    ensures Occurrences(s, c) == 1 <==> forall k :: 0 <= k < |s| && k != i ==> s[k] != c
  {
    assert s == s[..i] + [s[i]] + s[i + 1..];
    OccurrencesConcat(s[..i] + [s[i]], s[i + 1..], c);
    OccurrencesConcat(s[..i], [s[i]], c);
    assert Occurrences([s[i]], c) == 1;
    assert forall k :: 0 <= k < i ==> s[k] == s[..i][k];
    assert forall k :: i < k < |s| ==> s[k] == s[i + 1..][k - i - 1];
  }

  /** The position of the first `c` in `s`, or `|s|` when there is none. */
  function IndexOf(s: string, c: char): (i: nat)
    ensures i <= |s|
    ensures i < |s| ==> s[i] == c
    ensures forall k :: 0 <= k < i ==> s[k] != c
  {
    if s == [] then 0
    else if s[0] == c then 0
    else 1 + IndexOf(s[1..], c)
  }

  /** The domain has a `.` that is neither its first nor its last character. */
  predicate InteriorDot(d: string)
  {
    exists k :: 0 < k < |d| - 1 && d[k] == '.'
  }

  /**
   * The address read character by character: no whitespace, exactly one
   * `@`, something before it, and a `.` inside the part after it.
   */
  predicate EmailShape(s: string)
  {
    var at := IndexOf(s, '@');
    && (forall k :: 0 <= k < |s| ==> !JsSpace(s[k]))
    && Occurrences(s, '@') == 1
    && at > 0
    && InteriorDot(s[at + 1..])
  }

  /** A split the regex finds leaves exactly one `@`, at `i`, and no whitespace. */
  lemma RegexSplitShape(s: string, i: int, j: int)
    requires RegexSplit(s, i, j)
    ensures EmailShape(s)
  {
    assert forall k :: 0 <= k < |s| && k != i ==> Plain(s[k]);
    OccursOnceAt(s, '@', i);
    assert IndexOf(s, '@') == i;
    var d := s[i + 1..];
    assert d[j - i - 1] == '.';
  }

  /** An address of that shape splits at its `@` and at the interior `.` of its domain. */
  lemma ShapeRegexSplit(s: string) returns (i: nat, j: nat)
    requires EmailShape(s)
    ensures RegexSplit(s, i, j)
  {
    i := IndexOf(s, '@');
    var d := s[i + 1..];
    var m :| 0 < m < |d| - 1 && d[m] == '.';
    j := i + 1 + m;
    assert s[j] == d[m];
    OccursOnceAt(s, '@', i);
    assert forall k :: 0 <= k < |s| && k != i ==> Plain(s[k]);
  }

  /** The regex accepts exactly the addresses of that shape. */
  lemma EmailCharacterisation(s: string)
    ensures IsValidEmail(s) <==> EmailShape(s)
  {
    if IsValidEmail(s) {
      var i, j :| RegexSplit(s, i, j);
      RegexSplitShape(s, i, j);
    }
    if EmailShape(s) {
      var i, j := ShapeRegexSplit(s);
    }
  }

  /** A lower-case ASCII letter is a plain character. */
  lemma LetterPlain(c: char)
    requires 'a' <= c <= 'z'
    ensures Plain(c)
  {
  }

  /** A second `@` and a domain whose only dot is at its start are both refused. */
  lemma EmailExamples()
    ensures IsValidEmail("a@b.c")
    ensures !IsValidEmail("a@b@c.d")
    ensures !IsValidEmail("a@.bc")
  {
    var s := "a@b.c";
    LetterPlain(s[0]);
    LetterPlain(s[2]);
    LetterPlain(s[4]);
    assert RegexSplit(s, 1, 3);
    var t := "a@b@c.d";
    EmailCharacterisation(t);
    OccursOnceAt(t, '@', 1);
    assert t[3] == '@';
    var u := "a@.bc";
    EmailCharacterisation(u);
    assert IndexOf(u, '@') == 1;
    assert u[2..] == ".bc";
  }

  /** The rules of the form, in the order they are checked. */
  datatype FormError = InvalidName | InvalidEmail | MissingSubject | InvalidMessage
  {
    /** The message shown for the rule. */
    function Message(): string
    {
      match this
      case InvalidName => "Please enter a valid name (at least 2 characters)"
      case InvalidEmail => "Please enter a valid email address"
      case MissingSubject => "Please select a subject"
      case InvalidMessage => "Please enter a message (at least 10 characters)"
    }
  }

  const MinNameLength := 2
  const MinMessageLength := 10

  /** A field given whose trimmed text is at least `min` UTF-16 units long. */
  predicate LongEnough(field: Option<string>, min: nat)
  {
    Given(field) && Utf16Length(Trim(field.value, JsSpace)) >= min
  }

  predicate NameOk(f: ContactForm) { LongEnough(f.name, MinNameLength) }
  predicate EmailOk(f: ContactForm) { Given(f.email) && IsValidEmail(f.email.value) }
  predicate SubjectOk(f: ContactForm) { Given(f.subject) }
  predicate MessageOk(f: ContactForm) { LongEnough(f.message, MinMessageLength) }

  /**
   * `validateContactForm`: `None` when the form is accepted, otherwise the
   * first rule it breaks. Exactly one message is reported, and a rule is
   * reported only when every earlier rule holds.
   */
  function ValidateContactForm(f: ContactForm): (r: Option<FormError>)
    ensures r == None <==> NameOk(f) && EmailOk(f) && SubjectOk(f) && MessageOk(f)
    ensures r == Some(InvalidName) <==> !NameOk(f)
    ensures r == Some(InvalidEmail) <==> NameOk(f) && !EmailOk(f)
    ensures r == Some(MissingSubject) <==> NameOk(f) && EmailOk(f) && !SubjectOk(f)
    ensures r == Some(InvalidMessage) <==> NameOk(f) && EmailOk(f) && SubjectOk(f) && !MessageOk(f)
  {
    if !Given(f.name) || Utf16Length(Trim(f.name.value, JsSpace)) < MinNameLength then Some(InvalidName)
    else if !Given(f.email) || !IsValidEmail(f.email.value) then Some(InvalidEmail)
    else if !Given(f.subject) then Some(MissingSubject)
    else if !Given(f.message) || Utf16Length(Trim(f.message.value, JsSpace)) < MinMessageLength then Some(InvalidMessage)
    else None
  }

  /** The name's length is taken after trimming: one letter padded with spaces is refused. */
  lemma PaddedNameRefused(email: string, subject: string, message: string)
    ensures ValidateContactForm(ContactForm(Some("  a  "), Some(email), Some(subject), Some(message))) == Some(InvalidName)
  {
    var f := ContactForm(Some("  a  "), Some(email), Some(subject), Some(message));
    assert !NameOk(f) by {
      var pad, letter := "  ", "a";
      assert !JsSpace(letter[0]) && JsSpace(pad[0]) && JsSpace(pad[1]);
      TrimPadded(pad, letter, pad, JsSpace);
      assert pad + letter + pad == "  a  ";
      assert Utf16Length(letter) == 1;
    }
  }

  /**
   * The subject is only tested for being non-empty: with a two-letter name,
   * a valid email and a long enough message, a subject of one space passes.
   */
  lemma BlankSubjectAccepted(email: string, message: string)
    requires IsValidEmail(email) && LongEnough(Some(message), MinMessageLength)
    ensures ValidateContactForm(ContactForm(Some("ab"), Some(email), Some(" "), Some(message))) == None
  {
    var name := "ab";
    var accepted := ContactForm(Some(name), Some(email), Some(" "), Some(message));
    assert NameOk(accepted) by {
      assert !JsSpace(name[0]) && !JsSpace(name[1]);
      TrimFixed(name, JsSpace);
      assert name[1..][1..] == [];
    }
    assert EmailOk(accepted) && SubjectOk(accepted) && MessageOk(accepted);
  }
}
