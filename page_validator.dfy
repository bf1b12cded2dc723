/**
 * The admin-page validator (Page_Validator.php): it checks a page's key,
 * menu title and view settings, logging one message per failed check, and
 * formats the messages into one report. The page is the record of `Page`'s
 * public fields the checks read; `isAcf` stands for `instanceof ACF_Page`.
 */
module PageValidatorModel {
  import opened Wrappers
  import opened PhpStrings
  import opened PhpArrays

  /**
   * The fields of a `Page` the validator reads. `viewData` holds the keys
   * of the `view_data` array: the check only asks whether it is empty.
   */
  datatype Page = Page(
    key: Option<string>,
    menuTitle: Option<string>,
    viewTemplate: string,
    viewData: seq<string>,
    isAcf: bool)

  /** `new Page( $key )`: no menu title, an empty template and no view data. */
  function NewPage(key: Option<string>): (p: Page)
    ensures p.key == key && p.menuTitle.None? && p.viewTemplate == "" && p.viewData == [] && !p.isAcf
  {
    Page(key, None, "", [], false)
  }

  /** The two values of `page_type`. */
  datatype PageType = WpPage | AcfPage

  const KeyNotDefined: string := "Page key not defined"
  const KeyInvalid: string := "Page key is invalid"
  const TitleNotDefined: string := "Menu title not defined"
  const TemplateNotDefined: string := "View template not defined, but data passed"

  /** `empty()` on a nullable string property. */
  predicate EmptyOrNull(o: Option<string>)
  {
    o.None? || IsEmpty(o.value)
  }

  /** A character of the class `[-a-z0-9_]`. */
  predicate KeyChar(c: char)
  {
    'a' <= c <= 'z' || '0' <= c <= '9' || c == '-' || c == '_'
  }

  /** The whole string is a lower-case letter followed by key characters. */
  predicate StrictKey(k: string)
  {
    |k| >= 1 && 'a' <= k[0] <= 'z' && forall i :: 1 <= i < |k| ==> KeyChar(k[i])
  }

  /**
   * `preg_match( '/^[a-z][-a-z0-9_]*$/', $key )`: without the D modifier
   * `$` also matches just before a final newline.
   */
  predicate KeyPatternMatches(k: string)
  {
    StrictKey(k) || (|k| >= 2 && k[|k| - 1] == '\n' && StrictKey(k[..|k| - 1]))
  }

  /** `check_keys()`: at most one message, none exactly when the key is set and matches. */
  function KeyMessages(key: Option<string>): (r: seq<string>)
    ensures |r| <= 1
    ensures r == [] <==> !EmptyOrNull(key) && KeyPatternMatches(key.value)
    ensures EmptyOrNull(key) ==> r == [KeyNotDefined]
    ensures !EmptyOrNull(key) && !KeyPatternMatches(key.value) ==> r == [KeyInvalid]
  {
    if EmptyOrNull(key) then [KeyNotDefined]
    else if !KeyPatternMatches(key.value) then [KeyInvalid]
    else []
  }

  /** `check_titles()`. */
  function TitleMessages(title: Option<string>): (r: seq<string>)
    ensures r == [] <==> !EmptyOrNull(title)
    ensures r != [] ==> r == [TitleNotDefined]
  {
    if EmptyOrNull(title) then [TitleNotDefined] else []
  }

  /** `check_view()`: data to pass but no template to pass it to. */
  function ViewMessages(p: Page): (r: seq<string>)
    ensures r == [] <==> p.viewData == [] || !IsEmpty(p.viewTemplate)
    ensures r != [] ==> r == [TemplateNotDefined]
  {
    if p.viewData != [] && IsEmpty(p.viewTemplate) then [TemplateNotDefined] else []
  }

  /** `run_checks()`: keys, titles, then the view check for a WordPress page; `check_acf_fields()` checks nothing. */
  function CheckMessages(p: Page, mode: PageType): seq<string>
  {
    KeyMessages(p.key) + TitleMessages(p.menuTitle) + (if mode == WpPage then ViewMessages(p) else [])
  }

  /** What a page must satisfy to pass, stated on its own. */
  predicate Acceptable(p: Page, mode: PageType)
  {
    && p.key.Some? && !IsEmpty(p.key.value) && KeyPatternMatches(p.key.value)
    && p.menuTitle.Some? && !IsEmpty(p.menuTitle.value)
    && (mode == AcfPage || p.viewData == [] || !IsEmpty(p.viewTemplate))
  }

  /** The checks log nothing exactly when the page is acceptable, and log at most one message each. */
  lemma CheckMessagesSpec(p: Page, mode: PageType)
    ensures CheckMessages(p, mode) == [] <==> Acceptable(p, mode)
    ensures |CheckMessages(p, mode)| <= 3
    ensures mode == AcfPage ==> |CheckMessages(p, mode)| <= 2
  {
    var k, t := KeyMessages(p.key), TitleMessages(p.menuTitle);
    var v := if mode == WpPage then ViewMessages(p) else [];
    assert CheckMessages(p, mode) == k + t + v;
    assert |k + t + v| == |k| + |t| + |v|;
  }

  /** `error_log( array( $m ) )` for each message: every entry is a one-element array. */
  function Logged(ms: seq<string>): (r: seq<seq<string>>)
    ensures |r| == |ms|
    ensures forall i :: 0 <= i < |ms| ==> r[i] == [ms[i]]
  {
    seq(|ms|, i requires 0 <= i < |ms| => [ms[i]])
  }

  lemma LoggedAppend(a: seq<string>, b: seq<string>)
    ensures Logged(a + b) == Logged(a) + Logged(b)
  {
  }

  /** The validator's fields. */
  datatype ValidatorState = ValidatorState(
    page: Option<Page>,
    error: bool,
    messages: seq<seq<string>>,
    pageType: PageType)

  /** A fresh validator: no page, no error, no message, WordPress mode. */
  const Initial: ValidatorState := ValidatorState(None, false, [], WpPage)

  /** The error flag is set exactly when something has been logged. */
  predicate Consistent(st: ValidatorState)
  {
    st.error == (st.messages != [])
  }

  /**
   * `validate_page( $page )` as written: reset the flag and the messages,
   * switch to ACF mode on an ACF page (nothing ever switches back), then
   * run the checks.
   */
  function Validate(st: ValidatorState, p: Page): (r: ValidatorState)
    ensures Consistent(r)
    ensures r.page == Some(p)
    ensures r.messages == Logged(CheckMessages(p, r.pageType))
    ensures r.pageType == (if p.isAcf then AcfPage else st.pageType)
  {
    var mode := if p.isAcf then AcfPage else st.pageType;
    var ms := CheckMessages(p, mode);
    ValidatorState(Some(p), ms != [], Logged(ms), mode)
  }

  /** `has_errors()` after a validation: true exactly when the page is not acceptable in the mode it ran in. */
  lemma HasErrorsSpec(st: ValidatorState, p: Page)
    ensures Validate(st, p).error <==> !Acceptable(p, Validate(st, p).pageType)
  {
    CheckMessagesSpec(p, Validate(st, p).pageType);
  }

  const ReportPrefix: string := "Errors thrown validating "
  const NoKey: string := "NO KEY"
  const NoMenuTitle: string := "NO MENU TITLE"

  /** The report's first item: the key and menu title, or placeholders for null ones (also when no page was validated). */
  function ReportHeader(page: Option<Page>): string
  {
    var key := if page.Some? && page.value.key.Some? then page.value.key.value else NoKey;
    var title := if page.Some? && page.value.menuTitle.Some? then page.value.menuTitle.value else NoMenuTitle;
    ReportPrefix + key + " : " + title
  }

  /** The two-character separator `'\\n'` written in single quotes: a backslash and an `n`. */
  const MessagePartSep: string := "\\n"

  /** `get_error_messages()`: the header, then each logged entry, joined with ", ". */
  function ErrorReport(st: ValidatorState): string
  {
    Join(", ", [ReportHeader(st.page)] + seq(|st.messages|, i requires 0 <= i < |st.messages| => Join(MessagePartSep, st.messages[i])))
  }

  /** After a validation the report is the header followed by exactly the messages the checks logged. */
  lemma ErrorReportLists(st: ValidatorState, p: Page)
    ensures var v := Validate(st, p);
      ErrorReport(v) == Join(", ", [ReportHeader(Some(p))] + CheckMessages(p, v.pageType))
  {
    var v := Validate(st, p);
    var ms := CheckMessages(p, v.pageType);
    var parts := seq(|v.messages|, i requires 0 <= i < |v.messages| => Join(MessagePartSep, v.messages[i]));
    assert parts == ms by {
      forall i | 0 <= i < |ms| ensures parts[i] == ms[i] {
        assert v.messages[i] == [ms[i]];
      }
    }
  }

  /** A page without a key: both the key and the title are reported, with both placeholders. */
  lemma ReportWithoutKey()
    ensures var v := Validate(Initial, NewPage(None));
      v.error && ErrorReport(v) == ReportPrefix + NoKey + " : " + NoMenuTitle + ", " + KeyNotDefined + ", " + TitleNotDefined
  {
    var p := NewPage(None);
    var v := Validate(Initial, p);
    assert CheckMessages(p, WpPage) == [KeyNotDefined, TitleNotDefined];
    ErrorReportLists(Initial, p);
    assert Join(", ", [ReportHeader(Some(p)), KeyNotDefined, TitleNotDefined])
      == ReportHeader(Some(p)) + ", " + KeyNotDefined + ", " + Join(", ", [TitleNotDefined]);
  }

  /** A key with upper case letters and spaces is reported as invalid, and shown as given. */
  lemma ReportInvalidKey()
    ensures var v := Validate(Initial, NewPage(Some("INVALID KEY @")));
      v.error && ErrorReport(v) == ReportPrefix + "INVALID KEY @" + " : " + NoMenuTitle + ", " + KeyInvalid + ", " + TitleNotDefined
  {
    var p := NewPage(Some("INVALID KEY @"));
    assert !KeyPatternMatches("INVALID KEY @") by {
      assert !StrictKey("INVALID KEY @") && !StrictKey("INVALID KEY ");
    }
    assert CheckMessages(p, WpPage) == [KeyInvalid, TitleNotDefined];
    ErrorReportLists(Initial, p);
    assert Join(", ", [ReportHeader(Some(p)), KeyInvalid, TitleNotDefined])
      == ReportHeader(Some(p)) + ", " + KeyInvalid + ", " + Join(", ", [TitleNotDefined]);
  }

  /** View data without a template is reported for a WordPress page with a valid key and title. */
  lemma ReportViewDataWithoutTemplate()
    ensures var p := NewPage(Some("some_key")).(menuTitle := Some("Some Page"), viewData := ["some"]);
      var v := Validate(Initial, p);
      v.error && ErrorReport(v) == ReportPrefix + "some_key" + " : " + "Some Page" + ", " + TemplateNotDefined
  {
    var p := NewPage(Some("some_key")).(menuTitle := Some("Some Page"), viewData := ["some"]);
    assert StrictKey("some_key");
    assert CheckMessages(p, WpPage) == [TemplateNotDefined];
    ErrorReportLists(Initial, p);
  }

  /**
   * As written, the ACF flag sticks: once an ACF page has been validated,
   * a WordPress page with view data and no template passes.
   */
  lemma StickyAcfSkipsViewCheck(acf: Page, wp: Page)
    requires acf == NewPage(Some("fields")).(menuTitle := Some("Fields"), isAcf := true)
    requires wp == NewPage(Some("some_key")).(menuTitle := Some("Some Page"), viewData := ["some"])
    ensures !Validate(Validate(Initial, acf), wp).error
    ensures Validate(Initial, wp).error
  {
    assert StrictKey("some_key");
    assert CheckMessages(wp, WpPage) == [TemplateNotDefined];
    assert CheckMessages(wp, AcfPage) == [];
  }

  /** The mode a page is checked in, as evidently intended: its own kind. */
  function ModeOf(p: Page): PageType
  {
    if p.isAcf then AcfPage else WpPage
  }

  /** `validate_page( $page )` as evidently intended: the mode is set from the page every time. */
  function IntendedValidate(st: ValidatorState, p: Page): (r: ValidatorState)
    ensures Consistent(r)
    ensures r.page == Some(p)
    ensures r.messages == Logged(CheckMessages(p, ModeOf(p)))
  {
    var ms := CheckMessages(p, ModeOf(p));
    ValidatorState(Some(p), ms != [], Logged(ms), ModeOf(p))
  }

  /**
   * As intended, a validation depends on the page alone, not on what was
   * validated before, and agrees with the written one on a fresh validator.
   */
  lemma IntendedValidateHistoryFree(st1: ValidatorState, st2: ValidatorState, p: Page)
    ensures IntendedValidate(st1, p) == IntendedValidate(st2, p)
    ensures IntendedValidate(st1, p) == Validate(Initial, p)
    ensures IntendedValidate(st1, p).error <==> !Acceptable(p, ModeOf(p))
  {
    CheckMessagesSpec(p, ModeOf(p));
  }

  /** As written, the key check lets a valid key followed by a newline through. */
  lemma KeyPatternAcceptsTrailingNewline()
    ensures KeyPatternMatches("home\n") && !StrictKey("home\n")
    ensures KeyMessages(Some("home\n")) == []
  {
    assert StrictKey("home\n"[..4]) by { assert "home\n"[..4] == "home"; }
    assert !KeyChar("home\n"[4]);
  }

  /** The key check as evidently intended: the whole key matches the pattern. */
  function IntendedKeyMessages(key: Option<string>): (r: seq<string>)
    ensures r == [] <==> !EmptyOrNull(key) && StrictKey(key.value)
    ensures r == [] ==> forall i :: 0 <= i < |key.value| ==> KeyChar(key.value[i])
  {
    if EmptyOrNull(key) then [KeyNotDefined]
    else if !StrictKey(key.value) then [KeyInvalid]
    else []
  }

  /** The strict check only rejects more: it differs from the written one exactly on a trailing newline. */
  lemma IntendedKeyMessagesSpec(key: Option<string>)
    ensures KeyMessages(key) == [] && IntendedKeyMessages(key) != [] <==>
      (!EmptyOrNull(key) && !StrictKey(key.value) && |key.value| >= 2 && key.value[|key.value| - 1] == '\n'
         && StrictKey(key.value[..|key.value| - 1]))
    ensures IntendedKeyMessages(key) == [] ==> KeyMessages(key) == []
  {
  }

  /** The validator: the page last validated, the error flag, the logged messages and the page type. */
  class PageValidator {
    var page: Option<Page>
    var error: bool
    var messages: seq<seq<string>>
    var pageType: PageType

    function State(): ValidatorState
      reads this
    {
      ValidatorState(page, error, messages, pageType)
    }

    /** `new Page_Validator()`. */
    constructor()
      ensures State() == Initial
    {
      page, error, messages, pageType := None, false, [], WpPage;
    }

    /** `validate_page( $page )`. */
    method ValidatePage(p: Page)
      modifies this
      ensures State() == Validate(old(State()), p)
    {
      error := false;
      messages := [];
      page := Some(p);
      if p.isAcf {
        pageType := AcfPage;
      }
      RunChecks();
    }

    /** `error_log( $data )`: sets the flag and appends the entry. */
    method ErrorLog(data: seq<string>)
      modifies this
      ensures error && messages == old(messages) + [data]
      ensures page == old(page) && pageType == old(pageType)
    {
      error := true;
      messages := messages + [data];
    }

    /** `run_checks()`. */
    method RunChecks()
      requires page.Some? && Consistent(State())
      modifies this
      ensures page == old(page) && pageType == old(pageType)
      ensures messages == old(messages) + Logged(CheckMessages(page.value, pageType))
      ensures Consistent(State())
    {
      var p := page.value;
      ghost var m0 := messages;
      ghost var k, t := KeyMessages(p.key), TitleMessages(p.menuTitle);
      ghost var v := if pageType == WpPage then ViewMessages(p) else [];
      CheckKeys();
      CheckTitles();
      if pageType == WpPage {
        CheckView();
      }
      assert messages == m0 + Logged(k) + Logged(t) + Logged(v);
      LoggedAppend(k, t);
      LoggedAppend(k + t, v);
      ConcatAssoc(m0 + Logged(k), Logged(t), Logged(v));
      ConcatAssoc(m0, Logged(k), Logged(t) + Logged(v));
      ConcatAssoc(Logged(k), Logged(t), Logged(v));
    }

    /** `check_keys()`. */
    method CheckKeys()
      requires page.Some? && Consistent(State())
      modifies this
      ensures page == old(page) && pageType == old(pageType)
      ensures messages == old(messages) + Logged(KeyMessages(page.value.key))
      ensures Consistent(State())
    {
      var key := page.value.key;
      if EmptyOrNull(key) {
        ErrorLog([KeyNotDefined]);
      } else if !KeyPatternMatches(key.value) {
        ErrorLog([KeyInvalid]);
      }
    }

    /** `check_titles()`. */
    method CheckTitles()
      requires page.Some? && Consistent(State())
      modifies this
      ensures page == old(page) && pageType == old(pageType)
      ensures messages == old(messages) + Logged(TitleMessages(page.value.menuTitle))
      ensures Consistent(State())
    {
      if EmptyOrNull(page.value.menuTitle) {
        ErrorLog([TitleNotDefined]);
      }
    }

    /** `check_view()`. */
    method CheckView()
      requires page.Some? && Consistent(State())
      modifies this
      ensures page == old(page) && pageType == old(pageType)
      ensures messages == old(messages) + Logged(ViewMessages(page.value))
      ensures Consistent(State())
    {
      var p := page.value;
      if p.viewData != [] && IsEmpty(p.viewTemplate) {
        ErrorLog([TemplateNotDefined]);
      }
    }

    /** `has_errors()`. */
    function HasErrors(): (r: bool)
      reads this
      ensures Consistent(State()) ==> (r <==> messages != [])
    {
      error
    }

    /** `get_error_messages()`. */
    function GetErrorMessages(): (r: string)
      reads this
      ensures |r| >= |ReportPrefix| && r[..|ReportPrefix|] == ReportPrefix
    {
      ErrorReport(State())
    }
  }
}
