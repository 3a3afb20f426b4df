/**
 * The Services page: the section-anchor slug computed from a service title,
 * the JSON-LD anchor URLs that name those sections, the carousel image lists
 * and the title -> visual dispatch.
 */
module Services {
  import opened Wrappers

  // ---------------------------------------------------------------------------
  // Character classes (ASCII only)
  // ---------------------------------------------------------------------------

  predicate IsUpper(c: char) { 'A' <= c <= 'Z' }

  /** A character of the class [a-z0-9], the one the slug keeps. */
  predicate IsAlnum(c: char) { ('a' <= c <= 'z') || ('0' <= c <= '9') }

  /** A character that may appear in a slug: [a-z0-9-]. */
  predicate IsSlugChar(c: char) { IsAlnum(c) || c == '-' }

  function LowerChar(c: char): (r: char)
    ensures IsUpper(c) ==> r as int == c as int + 32
    ensures !IsUpper(c) ==> r == c
  {
    if IsUpper(c) then (c as int + 32) as char else c
  }

  // ---------------------------------------------------------------------------
  // The four stages of the slug chain
  // ---------------------------------------------------------------------------

  /** `toLowerCase()`, restricted to ASCII letters. */
  function Lower(s: string): (r: string)
    ensures |r| == |s|
    ensures forall i :: 0 <= i < |s| ==> r[i] == LowerChar(s[i])
  {
    if s == [] then [] else [LowerChar(s[0])] + Lower(s[1..])
  }

  /** `replace(/&/g, 'and')`. */
  function ReplaceAmp(s: string): string
  {
    if s == [] then []
    else if s[0] == '&' then "and" + ReplaceAmp(s[1..])
    else [s[0]] + ReplaceAmp(s[1..])
  }

  /** The suffix of `s` left once its leading characters outside [a-z0-9] are dropped. */
  function DropRun(s: string): (r: string)
    ensures |r| <= |s|
    ensures r == [] || IsAlnum(r[0])
  {
    if s != [] && !IsAlnum(s[0]) then DropRun(s[1..]) else s
  }

  /** `replace(/[^a-z0-9]+/g, '-')`: each maximal run of characters outside [a-z0-9] becomes one '-'. */
  function Collapse(s: string): string
    decreases |s|
  {
    if s == [] then []
    else if IsAlnum(s[0]) then [s[0]] + Collapse(s[1..])
    else "-" + Collapse(DropRun(s[1..]))
  }

  /** `replace(/(^-|-$)/g, '')`: removes one leading and one trailing '-'. */
  function StripEdges(s: string): string
  {
    var a := if s != [] && s[0] == '-' then s[1..] else s;
    if a != [] && a[|a| - 1] == '-' then a[..|a| - 1] else a
  }

  /** The section id the Services page gives a service title (Services.tsx, the `id` of each section). */
  function Slug(title: string): string
  {
    StripEdges(Collapse(ReplaceAmp(Lower(title))))
  }

  // ---------------------------------------------------------------------------
  // Independent description of a slug
  // ---------------------------------------------------------------------------

  predicate AllSlugChars(s: string)
  {
    forall i :: 0 <= i < |s| ==> IsSlugChar(s[i])
  }

  predicate NoDoubleDash(s: string)
  {
    forall i :: 0 <= i < |s| - 1 ==> !(s[i] == '-' && s[i + 1] == '-')
  }

  /** What every slug looks like: only [a-z0-9-], no "--", no '-' at either end. */
  predicate IsSlug(s: string)
  {
    && AllSlugChars(s)
    && NoDoubleDash(s)
    && (s != [] ==> s[0] != '-' && s[|s| - 1] != '-')
  }

  /** The characters of `s` in [a-z0-9], in order: what the slug keeps of its input. */
  function Alnums(s: string): string
  {
    if s == [] then []
    else if IsAlnum(s[0]) then [s[0]] + Alnums(s[1..])
    else Alnums(s[1..])
  }

  // ---------------------------------------------------------------------------
  // Shape: every slug is an IsSlug string
  // ---------------------------------------------------------------------------

  lemma {:induction false} CollapseShape(s: string)
    ensures AllSlugChars(Collapse(s)) && NoDoubleDash(Collapse(s))
    ensures Collapse(s) != [] <==> s != []
    ensures s != [] ==> (Collapse(s)[0] == '-' <==> !IsAlnum(s[0]))
    decreases |s|
  {
    if s == [] {
    } else if IsAlnum(s[0]) {
      CollapseShape(s[1..]);
      assert Collapse(s) == [s[0]] + Collapse(s[1..]);
    } else {
      var t := DropRun(s[1..]);
      CollapseShape(t);
      assert Collapse(s) == "-" + Collapse(t);
      assert Collapse(t) != [] ==> Collapse(t)[0] != '-';
    }
  }

  lemma StripEdgesShape(s: string)
    requires AllSlugChars(s) && NoDoubleDash(s)
    ensures IsSlug(StripEdges(s))
  {
    var a := if s != [] && s[0] == '-' then s[1..] else s;
    assert AllSlugChars(a) && NoDoubleDash(a);
    assert a != [] ==> a[0] != '-' by {
      if a != [] && s != [] && s[0] == '-' {
        assert a[0] == s[1];
      }
    }
    if a != [] && a[|a| - 1] == '-' {
      var b := a[..|a| - 1];
      assert b != [] ==> b[|b| - 1] == a[|a| - 2];
    }
  }

  /** Every slug consists of [a-z0-9-] only, has no "--" and neither starts nor ends with '-'. */
  lemma SlugShape(title: string)
    ensures IsSlug(Slug(title))
  {
    CollapseShape(ReplaceAmp(Lower(title)));
    StripEdgesShape(Collapse(ReplaceAmp(Lower(title))));
  }

  // ---------------------------------------------------------------------------
  // Content: the slug keeps exactly the [a-z0-9] characters, in order
  // ---------------------------------------------------------------------------

  lemma {:induction false} DropRunAlnums(s: string)
    ensures Alnums(DropRun(s)) == Alnums(s)
  {
    if s != [] && !IsAlnum(s[0]) {
      DropRunAlnums(s[1..]);
    }
  }

  lemma {:induction false} CollapseAlnums(s: string)
    ensures Alnums(Collapse(s)) == Alnums(s)
    decreases |s|
  {
    if s == [] {
    } else if IsAlnum(s[0]) {
      CollapseAlnums(s[1..]);
      assert ([s[0]] + Collapse(s[1..]))[1..] == Collapse(s[1..]);
    } else {
      var t := DropRun(s[1..]);
      CollapseAlnums(t);
      DropRunAlnums(s[1..]);
      assert ("-" + Collapse(t))[1..] == Collapse(t);
    }
  }

  lemma {:induction false} AlnumsAppend(a: string, b: string)
    ensures Alnums(a + b) == Alnums(a) + Alnums(b)
  {
    if a != [] {
      AlnumsAppend(a[1..], b);
      assert (a + b)[1..] == a[1..] + b;
    } else {
      assert a + b == b;
    }
  }

  lemma StripEdgesAlnums(s: string)
    ensures Alnums(StripEdges(s)) == Alnums(s)
  {
    var a := if s != [] && s[0] == '-' then s[1..] else s;
    if s != [] && s[0] == '-' {
      assert Alnums(a) == Alnums(s);
    }
    if a != [] && a[|a| - 1] == '-' {
      var b := a[..|a| - 1];
      assert a == b + "-";
      AlnumsAppend(b, "-");
    }
  }

  /** The slug keeps every [a-z0-9] character of the lower-cased, '&'-expanded title, in order, and nothing else but '-'. */
  lemma SlugKeepsAlnums(title: string)
    ensures Alnums(Slug(title)) == Alnums(ReplaceAmp(Lower(title)))
  {
    CollapseAlnums(ReplaceAmp(Lower(title)));
    StripEdgesAlnums(Collapse(ReplaceAmp(Lower(title))));
  }

  // ---------------------------------------------------------------------------
  // Idempotence: a slug is its own slug
  // ---------------------------------------------------------------------------

  lemma {:induction false} LowerFixed(s: string)
    requires AllSlugChars(s)
    ensures Lower(s) == s
  {
    assert forall i :: 0 <= i < |s| ==> Lower(s)[i] == s[i];
  }

  lemma {:induction false} ReplaceAmpFixed(s: string)
    requires AllSlugChars(s)
    ensures ReplaceAmp(s) == s
  {
    if s != [] {
      ReplaceAmpFixed(s[1..]);
    }
  }

  lemma {:induction false} CollapseFixed(s: string)
    requires AllSlugChars(s) && NoDoubleDash(s)
    ensures Collapse(s) == s
    decreases |s|
  {
    if s == [] {
    } else if IsAlnum(s[0]) {
      CollapseFixed(s[1..]);
    } else {
      var t := s[1..];
      assert t == [] || IsAlnum(t[0]);
      assert DropRun(t) == t;
      CollapseFixed(t);
    }
  }

  /** Applying the slug to its own output changes nothing. */
  lemma SlugIdempotent(title: string)
    ensures Slug(Slug(title)) == Slug(title)
  {
    var s := Slug(title);
    SlugShape(title);
    LowerFixed(s);
    ReplaceAmpFixed(s);
    CollapseFixed(s);
  }

  // ---------------------------------------------------------------------------
  // '&' between words
  // ---------------------------------------------------------------------------

  predicate AllAlnum(s: string)
  {
    forall i :: 0 <= i < |s| ==> IsAlnum(s[i])
  }

  lemma AppendAssoc(x: string, y: string, z: string)
    ensures x + (y + z) == (x + y) + z
  {
  }

  lemma {:induction false} ReplaceAmpAppend(a: string, b: string)
    ensures ReplaceAmp(a + b) == ReplaceAmp(a) + ReplaceAmp(b)
  {
    if a == [] {
      assert a + b == b;
    } else {
      ReplaceAmpAppend(a[1..], b);
      var ab := a + b;
      assert ab[0] == a[0] && ab[1..] == a[1..] + b;
      var head := if a[0] == '&' then "and" else [a[0]];
      assert ReplaceAmp(ab) == head + ReplaceAmp(a[1..] + b);
      assert ReplaceAmp(a) == head + ReplaceAmp(a[1..]);
      AppendAssoc(head, ReplaceAmp(a[1..]), ReplaceAmp(b));
    }
  }

  /**
   * An '&' written directly between two [a-z0-9] words becomes "and" with no
   * separator around it: `a&b` has slug `aandb`.
   */
  lemma AmpBetweenWords(a: string, b: string)
    requires AllAlnum(a) && AllAlnum(b)
    ensures Slug(a + "&" + b) == a + "and" + b
  {
    var s := a + "&" + b;
    assert forall i :: 0 <= i < |s| ==> s[i] == '&' || IsAlnum(s[i]);
    assert Lower(s) == s;
    ReplaceAmpAppend(a + "&", b);
    ReplaceAmpAppend(a, "&");
    ReplaceAmpFixed(a);
    ReplaceAmpFixed(b);
    var r := a + "and" + b;
    assert ReplaceAmp("&") == "and" by {
      assert "&"[1..] == [];
    }
    assert ReplaceAmp(a + "&") == a + "and";
    assert ReplaceAmp(Lower(s)) == r;
    assert AllAlnum(r);
    CollapseFixed(r);
    assert r[0] != '-' && r[|r| - 1] != '-';
    assert StripEdges(r) == r;
  }

  // ---------------------------------------------------------------------------
  // Computing concrete slugs
  // ---------------------------------------------------------------------------

  /** Each character outside [a-z0-9] replaced by '-', one for one. */
  function Dashify(s: string): (r: string)
    ensures |r| == |s|
    ensures forall i :: 0 <= i < |s| ==> r[i] == if IsAlnum(s[i]) then s[i] else '-'
  {
    if s == [] then [] else [if IsAlnum(s[0]) then s[0] else '-'] + Dashify(s[1..])
  }

  /** No two characters outside [a-z0-9] stand next to each other. */
  predicate SingleSeparators(s: string)
  {
    forall i :: 0 <= i < |s| - 1 ==> IsAlnum(s[i]) || IsAlnum(s[i + 1])
  }

  /** Lower-casing works piece by piece. */
  lemma LowersToAppend(t1: string, l1: string, t2: string, l2: string)
    requires LowersTo(t1, l1) && LowersTo(t2, l2)
    ensures LowersTo(t1 + t2, l1 + l2)
  {
    var t, l := t1 + t2, l1 + l2;
    forall i | 0 <= i < |t|
      ensures LowerChar(t[i]) == l[i]
    {
      if i < |t1| {
        assert t[i] == t1[i] && l[i] == l1[i];
      } else {
        assert t[i] == t2[i - |t1|] && l[i] == l2[i - |t1|];
      }
    }
  }

  /** Replacing separators by '-' works piece by piece. */
  lemma DashifiesToAppend(e1: string, d1: string, e2: string, d2: string)
    requires DashifiesTo(e1, d1) && DashifiesTo(e2, d2)
    ensures DashifiesTo(e1 + e2, d1 + d2)
  {
    var e, d := e1 + e2, d1 + d2;
    forall i | 0 <= i < |e|
      ensures d[i] == if IsAlnum(e[i]) then e[i] else '-'
    {
      if i < |e1| {
        assert e[i] == e1[i] && d[i] == d1[i];
      } else {
        assert e[i] == e2[i - |e1|] && d[i] == d2[i - |e1|];
      }
    }
  }

  /** Joining at a word character keeps separators single. */
  lemma SingleSeparatorsAppend(a: string, b: string)
    requires SingleSeparators(a) && SingleSeparators(b)
    requires (a != [] && IsAlnum(a[|a| - 1])) || (b != [] && IsAlnum(b[0]))
    ensures SingleSeparators(a + b)
  {
    var ab := a + b;
    forall i | 0 <= i < |ab| - 1
      ensures IsAlnum(ab[i]) || IsAlnum(ab[i + 1])
    {
      if i < |a| - 1 {
        assert ab[i] == a[i] && ab[i + 1] == a[i + 1];
      } else if i == |a| - 1 {
        assert ab[i] == a[i] && ab[i + 1] == b[0];
      } else {
        assert ab[i] == b[i - |a|] && ab[i + 1] == b[i + 1 - |a|];
      }
    }
  }

  /** Where every separator is a single character, collapsing is replacing each separator by '-'. */
  lemma {:induction false} CollapseSingleSeparators(s: string)
    requires SingleSeparators(s)
    ensures Collapse(s) == Dashify(s)
    decreases |s|
  {
    if s == [] {
    } else if IsAlnum(s[0]) {
      CollapseSingleSeparators(s[1..]);
    } else {
      var t := s[1..];
      assert t == [] || IsAlnum(t[0]);
      assert DropRun(t) == t;
      CollapseSingleSeparators(t);
    }
  }

  predicate NoAmp(s: string)
  {
    forall i :: 0 <= i < |s| ==> s[i] != '&'
  }

  lemma {:induction false} ReplaceAmpNoAmp(s: string)
    requires NoAmp(s)
    ensures ReplaceAmp(s) == s
  {
    if s != [] {
      ReplaceAmpNoAmp(s[1..]);
    }
  }

  /** `l` is `t` lower-cased, character by character. */
  predicate LowersTo(t: string, l: string)
  {
    |t| == |l| && forall i :: 0 <= i < |t| ==> LowerChar(t[i]) == l[i]
  }

  predicate DashifiesTo(e: string, d: string)
  {
    |e| == |d| && forall i :: 0 <= i < |e| ==> d[i] == if IsAlnum(e[i]) then e[i] else '-'
  }

  lemma LowersToLower(t: string, l: string)
    requires LowersTo(t, l)
    ensures Lower(t) == l
  {
  }

  lemma DashifiesToDashify(e: string, d: string)
    requires DashifiesTo(e, d)
    ensures Dashify(e) == d
  {
  }

  /** The slug of a title without '&' whose lower-cased form has only single separators. */
  lemma SlugVia(t: string, e: string, d: string)
    requires LowersTo(t, e) && NoAmp(e)
    requires SingleSeparators(e) && DashifiesTo(e, d)
    requires d != [] && d[0] != '-' && d[|d| - 1] != '-'
    ensures Slug(t) == d
  {
    LowersToLower(t, e);
    ReplaceAmpNoAmp(e);
    CollapseSingleSeparators(e);
    DashifiesToDashify(e, d);
  }

  /** The slug of a title with one '&', between `e1` and `e2` once lower-cased. */
  lemma SlugViaAmp(t: string, e1: string, e2: string, d: string)
    requires LowersTo(t, e1 + "&" + e2) && NoAmp(e1) && NoAmp(e2)
    requires SingleSeparators(e1 + "and" + e2) && DashifiesTo(e1 + "and" + e2, d)
    requires d != [] && d[0] != '-' && d[|d| - 1] != '-'
    ensures Slug(t) == d
  {
    var e := e1 + "and" + e2;
    LowersToLower(t, e1 + "&" + e2);
    ReplaceAmpAppend(e1 + "&", e2);
    ReplaceAmpAppend(e1, "&");
    ReplaceAmpNoAmp(e1);
    ReplaceAmpNoAmp(e2);
    assert ReplaceAmp("&") == "and" by {
      assert "&"[1..] == [];
    }
    assert ReplaceAmp(e1 + "&") == e1 + "and";
    assert ReplaceAmp(Lower(t)) == (e1 + "and") + e2;
    CollapseSingleSeparators(e);
    DashifiesToDashify(e, d);
  }

  // ---------------------------------------------------------------------------
  // The five services, their JSON-LD anchors and their section ids
  // ---------------------------------------------------------------------------

  const ServiceTitles: seq<string> := [
    "AI Voice Agent",
    "AI Lead Qualification & Nurturing",
    "AI-Generated Image & Video Assets",
    "AI Chatbots",
    "Content Automation"
  ]

  const PageUrl: string := "https://aryantra.co/services"

  /** The `url` of each service in the page's JSON-LD item list, in the same order. */
  const JsonLdUrls: seq<string> := [
    PageUrl + "#" + "ai-voice-agent",
    PageUrl + "#" + "ai-lead-qualification-and-nurturing",
    PageUrl + "#" + "ai-generated-image-and-video-assets",
    PageUrl + "#" + "ai-chatbots",
    PageUrl + "#" + "content-automation"
  ]

  // Each concrete slug is computed in three small steps, each checked on its own.

  lemma VoiceAgentLowers() ensures LowersTo("AI Voice Agent", "ai voice agent") {}
  lemma VoiceAgentSeparators() ensures NoAmp("ai voice agent") && SingleSeparators("ai voice agent") {}
  lemma VoiceAgentDashes() ensures DashifiesTo("ai voice agent", "ai-voice-agent") {}

  lemma SlugOfVoiceAgent(t: string)
    requires t == "AI Voice Agent"
    ensures Slug(t) == "ai-voice-agent"
  {
    VoiceAgentLowers();
    VoiceAgentSeparators();
    VoiceAgentDashes();
    SlugVia(t, "ai voice agent", "ai-voice-agent");
  }

  lemma LeadQualificationTitle()
    ensures "AI Lead Qualification & Nurturing" == "AI Lead Qualification " + "&" + " Nurturing"
  {
  }
  lemma LeadQualificationLowers()
    ensures LowersTo("AI Lead Qualification " + "&" + " Nurturing", "ai lead qualification " + "&" + " nurturing")
  {
    assert LowersTo("AI Lead Qualification ", "ai lead qualification ") && LowersTo("&", "&") && LowersTo(" Nurturing", " nurturing");
    LowersToAppend("AI Lead Qualification ", "ai lead qualification ", "&", "&");
    LowersToAppend("AI Lead Qualification " + "&", "ai lead qualification " + "&", " Nurturing", " nurturing");
  }
  lemma LeadQualificationNoAmp()
    ensures NoAmp("ai lead qualification ") && NoAmp(" nurturing")
  {
  }
  lemma LeadQualificationSeparators()
    ensures SingleSeparators("ai lead qualification " + "and" + " nurturing")
  {
    var e1, e2 := "ai lead qualification ", " nurturing";
    assert SingleSeparators(e1) && SingleSeparators("and") && SingleSeparators(e2);
    SingleSeparatorsAppend(e1, "and");
    assert (e1 + "and")[|e1 + "and"| - 1] == 'd';
    SingleSeparatorsAppend(e1 + "and", e2);
  }
  lemma LeadQualificationDashes()
    ensures DashifiesTo("ai lead qualification " + "and" + " nurturing", "ai-lead-qualification-" + "and" + "-nurturing")
  {
    assert DashifiesTo("ai lead qualification ", "ai-lead-qualification-") && DashifiesTo("and", "and") && DashifiesTo(" nurturing", "-nurturing");
    DashifiesToAppend("ai lead qualification ", "ai-lead-qualification-", "and", "and");
    DashifiesToAppend("ai lead qualification " + "and", "ai-lead-qualification-" + "and", " nurturing", "-nurturing");
  }
  lemma LeadQualificationId()
    ensures "ai-lead-qualification-and-nurturing" == "ai-lead-qualification-" + "and" + "-nurturing"
  {
  }

  lemma SlugOfLeadQualification(t: string)
    requires t == "AI Lead Qualification & Nurturing"
    ensures Slug(t) == "ai-lead-qualification-and-nurturing"
  {
    LeadQualificationTitle();
    LeadQualificationLowers();
    LeadQualificationNoAmp();
    LeadQualificationSeparators();
    LeadQualificationDashes();
    LeadQualificationId();
    SlugViaAmp(t, "ai lead qualification ", " nurturing", "ai-lead-qualification-" + "and" + "-nurturing");
  }

  lemma GeneratedMediaTitle()
    ensures "AI-Generated Image & Video Assets" == "AI-Generated Image " + "&" + " Video Assets"
  {
  }
  lemma GeneratedMediaLowers()
    ensures LowersTo("AI-Generated Image " + "&" + " Video Assets", "ai-generated image " + "&" + " video assets")
  {
    assert LowersTo("AI-Generated Image ", "ai-generated image ") && LowersTo("&", "&") && LowersTo(" Video Assets", " video assets");
    LowersToAppend("AI-Generated Image ", "ai-generated image ", "&", "&");
    LowersToAppend("AI-Generated Image " + "&", "ai-generated image " + "&", " Video Assets", " video assets");
  }
  lemma GeneratedMediaNoAmp()
    ensures NoAmp("ai-generated image ") && NoAmp(" video assets")
  {
  }
  lemma GeneratedMediaSeparators()
    ensures SingleSeparators("ai-generated image " + "and" + " video assets")
  {
    var e1, e2 := "ai-generated image ", " video assets";
    assert SingleSeparators(e1) && SingleSeparators("and") && SingleSeparators(e2);
    SingleSeparatorsAppend(e1, "and");
    assert (e1 + "and")[|e1 + "and"| - 1] == 'd';
    SingleSeparatorsAppend(e1 + "and", e2);
  }
  lemma GeneratedMediaDashes()
    ensures DashifiesTo("ai-generated image " + "and" + " video assets", "ai-generated-image-" + "and" + "-video-assets")
  {
    assert DashifiesTo("ai-generated image ", "ai-generated-image-") && DashifiesTo("and", "and") && DashifiesTo(" video assets", "-video-assets");
    DashifiesToAppend("ai-generated image ", "ai-generated-image-", "and", "and");
    DashifiesToAppend("ai-generated image " + "and", "ai-generated-image-" + "and", " video assets", "-video-assets");
  }
  lemma GeneratedMediaId()
    ensures "ai-generated-image-and-video-assets" == "ai-generated-image-" + "and" + "-video-assets"
  {
  }

  /** The '&' of "Image & Video" becomes "-and-": the id is "ai-generated-image-and-video-assets". */
  lemma SlugOfGeneratedMedia(t: string)
    requires t == "AI-Generated Image & Video Assets"
    ensures Slug(t) == "ai-generated-image-and-video-assets"
  {
    GeneratedMediaTitle();
    GeneratedMediaLowers();
    GeneratedMediaNoAmp();
    GeneratedMediaSeparators();
    GeneratedMediaDashes();
    GeneratedMediaId();
    SlugViaAmp(t, "ai-generated image ", " video assets", "ai-generated-image-" + "and" + "-video-assets");
  }

  lemma ChatbotsLowers() ensures LowersTo("AI Chatbots", "ai chatbots") {}
  lemma ChatbotsSeparators() ensures NoAmp("ai chatbots") && SingleSeparators("ai chatbots") {}
  lemma ChatbotsDashes() ensures DashifiesTo("ai chatbots", "ai-chatbots") {}

  lemma SlugOfChatbots(t: string)
    requires t == "AI Chatbots"
    ensures Slug(t) == "ai-chatbots"
  {
    ChatbotsLowers();
    ChatbotsSeparators();
    ChatbotsDashes();
    SlugVia(t, "ai chatbots", "ai-chatbots");
  }

  lemma ContentAutomationLowers() ensures LowersTo("Content Automation", "content automation") {}
  lemma ContentAutomationSeparators() ensures NoAmp("content automation") && SingleSeparators("content automation") {}
  lemma ContentAutomationDashes() ensures DashifiesTo("content automation", "content-automation") {}

  lemma SlugOfContentAutomation(t: string)
    requires t == "Content Automation"
    ensures Slug(t) == "content-automation"
  {
    ContentAutomationLowers();
    ContentAutomationSeparators();
    ContentAutomationDashes();
    SlugVia(t, "content automation", "content-automation");
  }

  /** The section ids the page renders, written out, in the order of the services. */
  const SectionIds: seq<string> := [
    "ai-voice-agent",
    "ai-lead-qualification-and-nurturing",
    "ai-generated-image-and-video-assets",
    "ai-chatbots",
    "content-automation"
  ]

  /** Each section id is the slug of its service's title. */
  lemma SectionIdsAreSlugs(k: nat)
    requires k < |ServiceTitles|
    ensures Slug(ServiceTitles[k]) == SectionIds[k]
  {
    var t := ServiceTitles[k];
    if k == 0 { SlugOfVoiceAgent(t); }
    else if k == 1 { SlugOfLeadQualification(t); }
    else if k == 2 { SlugOfGeneratedMedia(t); }
    else if k == 3 { SlugOfChatbots(t); }
    else { SlugOfContentAutomation(t); }
  }

  /** The slug of each service title is the `#` fragment of that service's JSON-LD URL. */
  lemma SectionIdsMatchJsonLd(k: nat)
    requires k < |ServiceTitles|
    ensures JsonLdUrls[k] == PageUrl + "#" + Slug(ServiceTitles[k])
  {
    SectionIdsAreSlugs(k);
  }

  /** Whether `/services#id` lands on a section of the page: `id` is the slug of one of the titles. */
  predicate IsSectionId(id: string)
  {
    exists k :: 0 <= k < |ServiceTitles| && Slug(ServiceTitles[k]) == id
  }

  /** The page's sections are exactly the five ids above. */
  lemma SectionIdIff(id: string)
    ensures IsSectionId(id) <==> id in SectionIds
  {
    if id in SectionIds {
      SectionIdFromList(id);
    }
    if IsSectionId(id) {
      SectionIdInList(id);
    }
  }

  lemma SectionIdFromList(id: string)
    requires id in SectionIds
    ensures IsSectionId(id)
  {
    var k :| 0 <= k < |SectionIds| && SectionIds[k] == id;
    SectionIdsAreSlugs(k);
  }

  lemma SectionIdInList(id: string)
    requires IsSectionId(id)
    ensures id in SectionIds
  {
    var k :| 0 <= k < |ServiceTitles| && Slug(ServiceTitles[k]) == id;
    SectionIdsAreSlugs(k);
    assert SectionIds[k] == id;
  }

  // ---------------------------------------------------------------------------
  // The visual beside each service
  // ---------------------------------------------------------------------------

  /** The image list of the "AI-Generated Image & Video Assets" carousel. */
  const CarouselImages: seq<string> := [
    "/carousel/photo1.png", "/carousel/photo2.png", "/carousel/photo3.png",
    "/carousel/photo4.png", "/carousel/photo5.png", "/carousel/photo6.png",
    "/carousel/photo7.png", "/carousel/photo8.png", "/carousel/photo9.png",
    "/carousel/photo10.png"
  ]

  /** The image list of the "AI Chatbots" carousel. */
  const ChatbotImages: seq<string> := ["/ai-chatbots/photo1.png", "/ai-chatbots/photo2.png"]

  const CarouselInterval: nat := 3000

  const LottieSource: string := "https://lottie.host/ebb288f3-6f2c-4f33-ae53-19c4545f76ae/AC641kx6i7.lottie"

  /** What the page renders next to a service's text. */
  datatype Visual =
    | ImageCarousel(images: seq<string>, interval: nat)
    | PhotoAudio(photoUrl: string, audioUrl: Option<string>)
    | Animation(src: string)
    | Icon

  /** The chain of title comparisons choosing a service's visual. */
  function VisualFor(title: string): Visual
  {
    if title == "AI-Generated Image & Video Assets" then ImageCarousel(CarouselImages, CarouselInterval)
    else if title == "AI Chatbots" then ImageCarousel(ChatbotImages, CarouselInterval)
    else if title == "AI Voice Agent" then PhotoAudio("/AiVoiceAgent/Aibot.png", Some("/AiVoiceAgent/HealthcareNeha.wav"))
    else if title == "Content Automation" then Animation(LottieSource)
    else if title == "AI Lead Qualification & Nurturing" then PhotoAudio("/lead/photo1.png", None)
    else Icon
  }

  /** Every carousel the page mounts is given a non-empty image list and a 3000 ms interval. */
  lemma CarouselsNonEmpty(title: string)
    ensures VisualFor(title).ImageCarousel? ==>
      |VisualFor(title).images| >= 1 && VisualFor(title).interval == 3000
  {
  }

  /** A title falls back to the gradient icon exactly when it is none of the five compared titles. */
  lemma IconIff(title: string)
    ensures VisualFor(title).Icon? <==>
      title !in {"AI-Generated Image & Video Assets", "AI Chatbots", "AI Voice Agent",
                 "Content Automation", "AI Lead Qualification & Nurturing"}
  {
  }

  /** Only the voice-agent overlay is given an audio file. */
  lemma AudioOnlyForVoiceAgent(title: string)
    ensures VisualFor(title).PhotoAudio? && VisualFor(title).audioUrl.Some? <==> title == "AI Voice Agent"
  {
  }

  /** None of the page's own five services falls back to the icon. */
  lemma EveryServiceHasVisual(k: nat)
    requires k < |ServiceTitles|
    ensures !VisualFor(ServiceTitles[k]).Icon?
  {
  }
}
