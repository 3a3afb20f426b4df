/** The portfolio's projects, their status badges and their "View Details" links. */
module Portfolio {
  import Services
  import Anchors

  const ProjectTitles: seq<string> := [
    "AI Conversational Agent for Sales Funnel Automation",
    "Voice-Enabled Sales Assistant",
    "Generative Media Engine for Ecommerce Campaigns",
    "Automated Content Marketing Suite",
    "Multi-Language Customer Support Bot"
  ]

  const ProjectStatuses: seq<string> := ["Completed", "Completed", "Completed", "Completed", "Completed"]

  /** `serviceSectionIds` of the portfolio page. */
  const SectionIdOf: map<string, string> := map[
    "AI Conversational Agent for Sales Funnel Automation" := "ai-voice-agent",
    "Voice-Enabled Sales Assistant" := "ai-voice-agent",
    "Generative Media Engine for Ecommerce Campaigns" := "ai-generated-image-video-assets",
    "Automated Content Marketing Suite" := "content-automation",
    "Multi-Language Customer Support Bot" := "ai-chatbots"
  ]

  /** Every project's title is a key of the table. */
  lemma EveryProjectMapped(k: nat)
    requires k < |ProjectTitles|
    ensures ProjectTitles[k] in SectionIdOf
    ensures Anchors.Target(SectionIdOf, ProjectTitles[k]) != Anchors.ServicesPath
  {
  }

  /** Two different projects link to the same section. */
  lemma NotInjective()
    ensures exists t1, t2 :: t1 in SectionIdOf && t2 in SectionIdOf && t1 != t2 && SectionIdOf[t1] == SectionIdOf[t2]
  {
    var t1, t2 := "AI Conversational Agent for Sales Funnel Automation", "Voice-Enabled Sales Assistant";
    assert t1 in SectionIdOf && t2 in SectionIdOf && SectionIdOf[t1] == SectionIdOf[t2];
  }

  /** Every project but the media engine lands on a section of the services page. */
  lemma LandsIffNotMedia(k: nat)
    requires k < |ProjectTitles|
    ensures Anchors.LandsOnSection(SectionIdOf, ProjectTitles[k]) <==>
      ProjectTitles[k] != "Generative Media Engine for Ecommerce Campaigns"
  {
    Anchors.LandsIff(SectionIdOf, ProjectTitles[k]);
  }

  datatype Badge = Green | Yellow

  /** The status badge's colour. */
  function BadgeFor(status: string): (b: Badge)
    ensures b == Green <==> status == "Completed"
  {
    if status == "Completed" then Green else Yellow
  }

  /** Every project shown is completed, so every badge is green. */
  lemma AllBadgesGreen(k: nat)
    requires k < |ProjectStatuses|
    ensures BadgeFor(ProjectStatuses[k]) == Green
  {
  }
}
