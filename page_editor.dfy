/**
 * The page content editor (src/pages/admin/PageEditor.tsx): the loaded
 * sections, the record of edited contents keyed by section id, the preview
 * switch, and how each section is titled and edited.
 */
module PageEditorPage {
  import opened Types
  import opened Text
  import opened EditMaps
  import Routes

  /** The (id, content) pair each loaded section contributes to the edit record. */
  function ContentPairs(data: seq<PageContent>): (pairs: seq<(string, string)>)
    ensures |pairs| == |data|
    ensures forall i :: 0 <= i < |data| ==> pairs[i] == (data[i].id, data[i].content)
  {
    seq(|data|, i requires 0 <= i < |data| => (data[i].id, data[i].content))
  }

  /** The (section key, section) pair each section contributes to the grouping. */
  function KeyPairs(data: seq<PageContent>): (pairs: seq<(string, PageContent)>)
    ensures |pairs| == |data|
    ensures forall i :: 0 <= i < |data| ==> pairs[i] == (data[i].sectionKey, data[i])
  {
    seq(|data|, i requires 0 <= i < |data| => (data[i].sectionKey, data[i]))
  }

  /** With distinct section ids, the loaded edit record holds each section's own content. */
  lemma LoadedRecordHoldsContent(data: seq<PageContent>)
    requires forall i, j :: 0 <= i < j < |data| ==> data[i].id != data[j].id
    ensures forall i :: 0 <= i < |data| ==>
      data[i].id in LastWins(ContentPairs(data)) && LastWins(ContentPairs(data))[data[i].id] == data[i].content
  {
    DistinctKeysKeepAll(ContentPairs(data));
  }

  /** The grouping keeps, for each section key, the last section carrying it. */
  lemma GroupingKeepsLast(data: seq<PageContent>, i: nat)
    requires i < |data|
    requires forall j :: i < j < |data| ==> data[j].sectionKey != data[i].sectionKey
    ensures LastWins(KeyPairs(data))[data[i].sectionKey] == data[i]
  {
    LastWinsValue(KeyPairs(data), i);
  }

  /** `getPageTitle`: the three public pages have names, anything else is the generic title. */
  function PageTitle(pageName: Option<string>): (title: string)
    ensures title in ["Home Page", "Projects Page", "About Page", "Page Editor"]
    ensures title != "Page Editor" <==> pageName.Some? && pageName.value in Routes.PublicPages
  {
    match pageName
    case Some("home") => "Home Page"
    case Some("projects") => "Projects Page"
    case Some("about") => "About Page"
    case _ => "Page Editor"
  }

  /** A list of words each with its first character upper-cased. */
  function CapitalizeWords(words: seq<string>): (r: seq<string>)
    ensures |r| == |words|
    ensures forall i :: 0 <= i < |words| ==> r[i] == Capitalize(words[i])
  {
    seq(|words|, i requires 0 <= i < |words| => Capitalize(words[i]))
  }

  /**
   * A character-by-character reading of the heading: every '_' becomes a
   * space, and a character that starts a word (the first one when `atStart`,
   * or one right after a '_') is upper-cased.
   */
  function Headline(key: string, atStart: bool): (r: string)
    ensures |r| == |key|
  {
    if |key| == 0 then ""
    else if key[0] == '_' then [' '] + Headline(key[1..], true)
    else [if atStart then ToUpper(key[0]) else key[0]] + Headline(key[1..], false)
  }

  /**
   * Character `i` of the heading: a '_' becomes a space, a character right
   * after a '_' (or the first one, when `atStart`) is upper-cased, and any
   * other is kept.
   */
  lemma {:induction false} HeadlineChar(key: string, atStart: bool, i: nat)
    requires i < |key|
    ensures key[i] == '_' ==> Headline(key, atStart)[i] == ' '
    ensures key[i] != '_' && 0 < i ==>
      Headline(key, atStart)[i] == (if key[i - 1] == '_' then ToUpper(key[i]) else key[i])
    ensures key[i] != '_' && i == 0 ==>
      Headline(key, atStart)[i] == (if atStart then ToUpper(key[i]) else key[i])
    decreases i
  {
    if 0 < i {
      HeadlineChar(key[1..], key[0] == '_', i - 1);
    }
  }

  /** The heading of a section: its key split on '_', each word capitalised, joined by spaces. */
  function FormatSectionKey(key: string): (heading: string)
    ensures heading == Headline(key, true)
    ensures |heading| == |key|
  {
    SplitHeadline(key, true);
    CapitalizeFirstThenRest(Split(key, '_'));
    Join(CapitalizeWords(Split(key, '_')), ' ')
  }

  /** The joined words of a split, the first one capitalised only when `capFirst`. */
  function JoinedWords(parts: seq<string>, capFirst: bool): string
    requires |parts| >= 1
  {
    Join([if capFirst then Capitalize(parts[0]) else parts[0]] + CapitalizeWords(parts[1..]), ' ')
  }

  /** Capitalising every word is capitalising the first and then the others. */
  lemma CapitalizeFirstThenRest(parts: seq<string>)
    requires |parts| >= 1
    ensures JoinedWords(parts, true) == Join(CapitalizeWords(parts), ' ')
  {
    assert [Capitalize(parts[0])] + CapitalizeWords(parts[1..]) == CapitalizeWords(parts);
  }

  /** Splitting, capitalising and joining agrees with the character-by-character reading. */
  lemma {:induction false} SplitHeadline(key: string, capFirst: bool)
    ensures JoinedWords(Split(key, '_'), capFirst) == Headline(key, capFirst)
    decreases |key|, 1
  {
    if |key| > 0 {
      if key[0] == '_' {
        HeadlineAtSeparator(key, capFirst);
      } else {
        HeadlineInWord(key, capFirst);
      }
    }
  }

  /** Induction step for a key that starts with '_': an empty first word, then a fresh start. */
  lemma {:induction false} HeadlineAtSeparator(key: string, capFirst: bool)
    requires |key| > 0 && key[0] == '_'
    ensures JoinedWords(Split(key, '_'), capFirst) == Headline(key, capFirst)
    decreases |key|, 0
  {
    var rest := Split(key[1..], '_');
    SplitHeadline(key[1..], true);
    CapitalizeFirstThenRest(rest);
    var parts := Split(key, '_');
    assert parts == [""] + rest;
    var w := if capFirst then Capitalize(parts[0]) else parts[0];
    assert w == "";
    assert ([w] + CapitalizeWords(parts[1..]))[1..] == CapitalizeWords(rest);
  }

  /** Induction step for a key that starts inside a word: its first character, then the same word. */
  lemma {:induction false} HeadlineInWord(key: string, capFirst: bool)
    requires |key| > 0 && key[0] != '_'
    ensures JoinedWords(Split(key, '_'), capFirst) == Headline(key, capFirst)
    decreases |key|, 0
  {
    var rest := Split(key[1..], '_');
    SplitHeadline(key[1..], false);
    var parts := Split(key, '_');
    var c := if capFirst then ToUpper(key[0]) else key[0];
    var tail := CapitalizeWords(rest[1..]);
    assert parts == [[key[0]] + rest[0]] + rest[1..];
    assert JoinedWords(parts, capFirst) == Join([[c] + rest[0]] + tail, ' ');
    JoinConsChar(c, rest[0], tail, ' ');
    assert JoinedWords(rest, false) == Join([rest[0]] + tail, ' ');
  }

  /** A section key as the editor heads it. */
  lemma FormatSectionKeyExample(key: string)
    requires key == "hero_title"
    ensures FormatSectionKey(key) == "Hero Title"
  {
    var h := Headline(key, true);
    forall i | 0 <= i < |key|
      ensures key[i] == '_' ==> h[i] == ' '
      ensures key[i] != '_' && 0 < i ==> h[i] == (if key[i - 1] == '_' then ToUpper(key[i]) else key[i])
      ensures key[i] != '_' && i == 0 ==> h[i] == ToUpper(key[i])
    {
      HeadlineChar(key, true, i);
    }
    assert ToUpper('h') == 'H' && ToUpper('t') == 'T';
    assert |h| == 10;
    assert key[0] == 'h' && key[4] == '_' && key[5] == 't';
    assert h[0] == 'H' && h[4] == ' ' && h[5] == 'T';
    assert h[1] == 'e' && h[2] == 'r' && h[3] == 'o';
    assert h[6] == 'i' && h[7] == 't' && h[8] == 'l' && h[9] == 'e';
  }

  /**
   * For a key without spaces, splitting the heading on spaces gives back the
   * key's words, capitalised: as many words as the key has parts.
   */
  lemma FormatKeepsWords(key: string)
    requires ' ' !in key
    ensures Split(FormatSectionKey(key), ' ') == CapitalizeWords(Split(key, '_'))
    ensures |Split(FormatSectionKey(key), ' ')| == |Split(key, '_')|
  {
    var parts := Split(key, '_');
    var words := CapitalizeWords(parts);
    SplitParts(key, '_');
    forall w | w in words
      ensures ' ' !in w
    {
      var i :| 0 <= i < |words| && words[i] == w;
      assert parts[i] in parts;
    }
    SplitJoin(words, ' ');
  }

  /** The rich-text editor's layout for a section. */
  datatype EditorStyle = EditorStyle(inline: bool, height: int)

  /** Every occurrence of "subtitle" contains one of "title". */
  lemma SubtitleHasTitle(key: string)
    ensures Contains(key, "subtitle") ==> Contains(key, "title")
  {
    if Contains(key, "subtitle") {
      var i :| 0 <= i <= |key| - |"subtitle"| && OccursAt(key, "subtitle", i);
      assert key[i + 3..i + 8] == "subtitle"[3..];
      assert OccursAt(key, "title", i + 3);
    }
  }

  /**
   * Title-like sections get the short inline editor (height 100), all others
   * the full one (height 300); the "subtitle" test adds no case to the "title" one.
   */
  function EditorFor(key: string): (style: EditorStyle)
    ensures style.inline <==> Contains(key, "title")
    ensures style.height == (if Contains(key, "title") then 100 else 300)
  {
    var inline := Contains(key, "title") || Contains(key, "subtitle");
    SubtitleHasTitle(key);
    EditorStyle(inline, if inline then 100 else 300)
  }

  /** `editedContent[section.id] || section.content`: an empty or missing edit falls back. */
  function ShownContent(edited: map<string, string>, section: PageContent): (shown: string)
    ensures section.id in edited && edited[section.id] != "" ==> shown == edited[section.id]
    ensures !(section.id in edited && edited[section.id] != "") ==> shown == section.content
    ensures shown == "" ==> section.content == ""
  {
    if section.id in edited && edited[section.id] != "" then edited[section.id] else section.content
  }

  class PageEditor {
    /** The `:pageName` route parameter. */
    const pageName: Option<string>
    var isEditing: bool
    var contentSections: seq<PageContent>
    var editedContent: map<string, string>

    constructor(name: Option<string>)
      ensures pageName == name
      ensures isEditing && contentSections == [] && editedContent == map[]
    {
      pageName := name;
      isEditing := true;
      contentSections := [];
      editedContent := map[];
    }

    /** The route names a page: a present, non-empty parameter. */
    predicate HasPageName()
    {
      pageName.Some? && pageName.value != ""
    }

    /**
     * The fetch effect with the page's sections: only with a page name, the
     * sections are kept and the edit record maps each id to its content.
     */
    method LoadContent(data: seq<PageContent>)
      modifies this
      ensures HasPageName() ==> contentSections == data && editedContent == LastWins(ContentPairs(data))
      ensures HasPageName() ==> forall s :: s in data ==> s.id in editedContent
      ensures !HasPageName() ==> contentSections == old(contentSections) && editedContent == old(editedContent)
      ensures isEditing == old(isEditing)
    {
      if HasPageName() {
        contentSections := data;
        editedContent := BuildRecord(ContentPairs(data));
        forall s | s in data ensures s.id in editedContent {
          var i :| 0 <= i < |data| && data[i] == s;
          assert ContentPairs(data)[i].0 == s.id;
        }
      }
    }

    /** `handleContentChange`: only the given id's entry is replaced. */
    method HandleContentChange(id: string, content: string)
      modifies this
      ensures editedContent == old(editedContent)[id := content]
      ensures forall k :: k != id ==> (k in editedContent <==> k in old(editedContent))
      ensures forall k :: k != id && k in editedContent ==> editedContent[k] == old(editedContent)[k]
      ensures contentSections == old(contentSections) && isEditing == old(isEditing)
    {
      editedContent := editedContent[id := content];
    }

    /** `handleSave`: one update per entry of the edit record, with the entry's content. */
    method HandleSave() returns (updates: seq<(string, string)>)
      ensures |updates| == |editedContent|
      ensures forall k :: k in editedContent ==> exists i :: 0 <= i < |updates| && updates[i] == (k, editedContent[k])
      ensures forall i :: 0 <= i < |updates| ==> updates[i].0 in editedContent && editedContent[updates[i].0] == updates[i].1
    {
      updates := UpdateCalls(editedContent);
    }

    /** `togglePreview`: flips between editing and preview. */
    method TogglePreview()
      modifies this
      ensures isEditing == !old(isEditing)
      ensures contentSections == old(contentSections) && editedContent == old(editedContent)
    {
      isEditing := !isEditing;
    }

    /** `groupedSections`: one section per section key, the last one with that key. */
    method GroupedSections() returns (groups: map<string, PageContent>)
      ensures groups == LastWins(KeyPairs(contentSections))
      ensures forall s :: s in contentSections ==> s.sectionKey in groups
      ensures forall k :: k in groups ==> groups[k] in contentSections && groups[k].sectionKey == k
    {
      groups := BuildRecord(KeyPairs(contentSections));
      forall s | s in contentSections ensures s.sectionKey in groups {
        var i :| 0 <= i < |contentSections| && contentSections[i] == s;
        assert KeyPairs(contentSections)[i].0 == s.sectionKey;
      }
      forall k | k in groups ensures groups[k] in contentSections && groups[k].sectionKey == k {
        GroupValueIsSection(contentSections, k);
      }
    }
  }

  /** Every value of the grouping is a section carrying its key. */
  lemma {:induction false} GroupValueIsSection(data: seq<PageContent>, k: string)
    requires k in LastWins(KeyPairs(data))
    ensures LastWins(KeyPairs(data))[k] in data && LastWins(KeyPairs(data))[k].sectionKey == k
    decreases |data|
  {
    var n := |data|;
    var init := data[..n - 1];
    assert KeyPairs(data)[..n - 1] == KeyPairs(init);
    if data[n - 1].sectionKey != k {
      GroupValueIsSection(init, k);
      assert forall s :: s in init ==> s in data;
    }
  }
}
