/** The journal page (src/pages/Journal.tsx): the search filter over the loaded entries and
    `saveEntry`, which checks the form, inserts the trimmed entry into the
    `journal_entries` table and resets the form. */
module Journal {
  import opened Wrappers
  import opened Text

  /** A `journal_entries` row: its owner, title and content. */
  datatype Entry = Entry(userId: string, title: string, content: string)

  /** The search test of one entry: its lower-cased title or content contains the
      lower-cased query. The query is not trimmed. */
  predicate Matches(e: Entry, query: string) {
    Includes(ToLower(e.title), ToLower(query)) || Includes(ToLower(e.content), ToLower(query))
  }

  /** `entries.filter(...)` with the search test, in the entries' order. */
  function Matching(entries: seq<Entry>, query: string): (r: seq<Entry>)
    ensures |r| <= |entries|
  {
    if entries == [] then []
    else (if Matches(entries[0], query) then [entries[0]] else []) + Matching(entries[1..], query)
  }

  /** The filter effect: a query that trims to nothing shows every entry, anything else
      shows the matching ones. */
  function Filter(entries: seq<Entry>, query: string): (r: seq<Entry>)
    ensures Trim(query) == [] ==> r == entries
  {
    if Trim(query) == [] then entries else Matching(entries, query)
  }

  /** Filtering a concatenation filters each part: the entries shown keep their order. */
  lemma {:induction false} FilterAppend(a: seq<Entry>, b: seq<Entry>, query: string)
    ensures Filter(a + b, query) == Filter(a, query) + Filter(b, query)
  {
    if Trim(query) != [] {
      MatchingAppend(a, b, query);
    }
  }

  lemma {:induction false} MatchingAppend(a: seq<Entry>, b: seq<Entry>, query: string)
    ensures Matching(a + b, query) == Matching(a, query) + Matching(b, query)
    decreases |a|
  {
    if a == [] {
      assert a + b == b;
    } else {
      var head := if Matches(a[0], query) then [a[0]] else [];
      assert (a + b)[0] == a[0] && (a + b)[1..] == a[1..] + b;
      assert Matching(a + b, query) == head + Matching(a[1..] + b, query);
      MatchingAppend(a[1..], b, query);
      assert Matching(a, query) == head + Matching(a[1..], query);
    }
  }

  /** For a query that does not trim to nothing, an entry is shown exactly when it is one
      of the entries and matches. */
  lemma {:induction false} FilterMembers(entries: seq<Entry>, query: string, e: Entry)
    requires Trim(query) != []
    ensures e in Filter(entries, query) <==> e in entries && Matches(e, query)
    decreases |entries|
  {
    if entries != [] {
      FilterMembers(entries[1..], query, e);
      assert entries == [entries[0]] + entries[1..];
    }
  }

  /** The search ignores the query's case: a query and its lower-cased form show the same
      entries. */
  lemma SearchIgnoresQueryCase(entries: seq<Entry>, query: string)
    ensures Filter(entries, query) == Filter(entries, ToLower(query))
  {
    var q := ToLower(query);
    ToLowerIdempotent(query);
    TrimSpec(query);
    TrimSpec(q);
    assert AllWhitespace(query) <==> AllWhitespace(q) by {
      forall i | 0 <= i < |query| ensures IsWhitespace(query[i]) <==> IsWhitespace(q[i]) {
        assert q[i] == LowerChar(query[i]);
      }
    }
    MatchingIgnoresQueryCase(entries, query);
  }

  lemma {:induction false} MatchingIgnoresQueryCase(entries: seq<Entry>, query: string)
    ensures Matching(entries, query) == Matching(entries, ToLower(query))
    decreases |entries|
  {
    if entries != [] {
      ToLowerIdempotent(query);
      assert Matches(entries[0], query) <==> Matches(entries[0], ToLower(query));
      MatchingIgnoresQueryCase(entries[1..], query);
    }
  }

  /** A single entry is shown exactly when it matches. */
  lemma FilterOne(e: Entry, query: string)
    requires Trim(query) != []
    ensures Filter([e], query) == (if Matches(e, query) then [e] else [])
  {
    assert [e][1..] == [];
  }

  /** The query is matched as typed: " b" finds "a b" but not "b", although its trimmed
      form "b" is in both. */
  lemma QueryIsNotTrimmed()
    ensures Filter([Entry("u", "a b", "")], " b") == [Entry("u", "a b", "")]
    ensures Filter([Entry("u", "b", "")], " b") == []
  {
    var q := " b";
    assert Trim(q) != [] by {
      assert !AllWhitespace(q) by { assert q[1] == 'b'; }
      TrimSpec(q);
    }
    assert ToLower(q) == q;
    assert ToLower("a b") == "a b";
    assert ToLower("b") == "b";
    assert ToLower("") == "";
    IncludesAt("a b", q, 1);
    assert !Includes("b", q);
    assert !Includes("", q);
    FilterOne(Entry("u", "a b", ""), q);
    FilterOne(Entry("u", "b", ""), q);
  }

  /** An entry as `saveEntry` stores it: a non-empty title and content, neither starting
      nor ending with whitespace. */
  predicate Clean(e: Entry) {
    e.title != [] && e.content != [] && Trim(e.title) == e.title && Trim(e.content) == e.content
  }

  /** The entry `saveEntry` inserts for the form's state, or `None` when the form check
      fails: there is no user, or the title or the content trims to nothing. */
  function Submission(user: Option<string>, title: string, content: string): Option<Entry> {
    if user.None? || Trim(title) == [] || Trim(content) == [] then None
    else Some(Entry(user.value, Trim(title), Trim(content)))
  }

  /** The form check rejects exactly a missing user or a title or content that trims to
      nothing; what passes is stored clean, under the current user. */
  lemma SubmissionIsClean(user: Option<string>, title: string, content: string)
    ensures Submission(user, title, content).None? <==> user.None? || AllWhitespace(title) || AllWhitespace(content)
    ensures Submission(user, title, content).Some? ==>
      var e := Submission(user, title, content).value;
      Clean(e) && e.userId == user.value
  {
    TrimSpec(title);
    TrimSpec(content);
    TrimIdempotent(title);
    TrimIdempotent(content);
  }

  /** The toasts `saveEntry` shows. */
  datatype JournalToast = MissingInformation | EntrySaved | SaveFailed(message: string)

  /** The page's state, and the rows of `journal_entries` it has written. */
  class JournalPage {
    var user: Option<string>
    var entries: seq<Entry>
    var filteredEntries: seq<Entry>
    var searchQuery: string
    var showNewEntry: bool
    var title: string
    var content: string
    var saving: bool
    var table: seq<Entry>
    var toasts: seq<JournalToast>

    constructor (user: Option<string>, entries: seq<Entry>)
      ensures this.user == user && this.entries == entries && filteredEntries == entries
      ensures searchQuery == "" && !showNewEntry && title == "" && content == "" && !saving
      ensures table == [] && toasts == []
    {
      this.user := user;
      this.entries := entries;
      filteredEntries := entries;
      searchQuery := "";
      showNewEntry := false;
      title := "";
      content := "";
      saving := false;
      table := [];
      toasts := [];
    }

    /** Typing in the search box, followed by the filter effect. */
    method SetSearchQuery(query: string)
      modifies this
      ensures searchQuery == query && filteredEntries == Filter(entries, query)
      ensures entries == old(entries) && table == old(table) && toasts == old(toasts)
      ensures title == old(title) && content == old(content) && showNewEntry == old(showNewEntry)
      ensures user == old(user) && saving == old(saving)
    {
      searchQuery := query;
      if Trim(searchQuery) == "" {
        filteredEntries := entries;
      } else {
        filteredEntries := Matching(entries, searchQuery);
      }
    }

    /** The title field's `onChange`. */
    method SetTitle(text: string)
      modifies this
      ensures title == text && content == old(content) && showNewEntry == old(showNewEntry)
      ensures entries == old(entries) && filteredEntries == old(filteredEntries) && searchQuery == old(searchQuery)
      ensures user == old(user) && saving == old(saving) && table == old(table) && toasts == old(toasts)
    {
      title := text;
    }

    /** The content field's `onChange`. */
    method SetContent(text: string)
      modifies this
      ensures content == text && title == old(title) && showNewEntry == old(showNewEntry)
      ensures entries == old(entries) && filteredEntries == old(filteredEntries) && searchQuery == old(searchQuery)
      ensures user == old(user) && saving == old(saving) && table == old(table) && toasts == old(toasts)
    {
      content := text;
    }

    /** `saveEntry`. Without a user, or with a title or content that trims to nothing, only
        the "Missing information" toast appears. Otherwise the trimmed entry is inserted;
        `insertError` is the error the insert reports, if any. On success the form is
        cleared and closed; either way `saving` ends false. */
    method SaveEntry(insertError: Option<string>)
      modifies this
      ensures user == old(user) && entries == old(entries) && searchQuery == old(searchQuery)
      ensures filteredEntries == old(filteredEntries)
      ensures var s := Submission(old(user), old(title), old(content));
        if s.None? then
          && table == old(table) && toasts == old(toasts) + [MissingInformation]
          && title == old(title) && content == old(content)
          && showNewEntry == old(showNewEntry) && saving == old(saving)
        else if insertError.Some? then
          && table == old(table) && toasts == old(toasts) + [SaveFailed(insertError.value)]
          && title == old(title) && content == old(content) && showNewEntry == old(showNewEntry) && !saving
        else
          && table == old(table) + [s.value]
          && toasts == old(toasts) + [EntrySaved]
          && title == "" && content == "" && !showNewEntry && !saving
    {
      if user.None? || Trim(title) == "" || Trim(content) == "" {
        toasts := toasts + [MissingInformation];
        return;
      }
      saving := true;
      if insertError.Some? {
        toasts := toasts + [SaveFailed(insertError.value)];
      } else {
        table := table + [Entry(user.value, Trim(title), Trim(content))];
        toasts := toasts + [EntrySaved];
        title := "";
        content := "";
        showNewEntry := false;
      }
      saving := false;
    }
  }
}
