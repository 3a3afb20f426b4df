/** The home page's service cards and the section each one links to. */
module Home {
  import Services
  import Anchors

  /** The titles of the five cards, in order. */
  const CardTitles: seq<string> := [
    "AI Voice Agents", "Lead Qualification", "AI-Generated Media", "AI Chatbots", "Content Automation"
  ]

  /** `serviceSectionIds` of the home page. */
  const SectionIdOf: map<string, string> := map[
    "AI Voice Agents" := "ai-voice-agent",
    "Lead Qualification" := "ai-lead-qualification-and-nurturing",
    "AI-Generated Media" := "ai-generated-image-video-assets",
    "AI Chatbots" := "ai-chatbots",
    "Content Automation" := "content-automation"
  ]

  /** Every card's title is a key of the table, so no card falls back to the bare services route. */
  lemma EveryCardMapped(k: nat)
    requires k < |CardTitles|
    ensures CardTitles[k] in SectionIdOf
    ensures Anchors.Target(SectionIdOf, CardTitles[k]) != Anchors.ServicesPath
  {
  }

  /**
   * The cards come in the order of the services page's sections. Each card's
   * id is the slug of the matching service title, except the media card's,
   * which drops the "and" the slug makes of '&' in
   * "AI-Generated Image & Video Assets".
   */
  lemma CardMatchesSlugIff(k: nat)
    requires k < |CardTitles|
    ensures SectionIdOf[CardTitles[k]] == Services.Slug(Services.ServiceTitles[k]) <==> k != 2
  {
    Services.SectionIdsAreSlugs(k);
    CardIdIff(k);
  }

  lemma CardIdIff(k: nat)
    requires k < |CardTitles|
    ensures SectionIdOf[CardTitles[k]] == Services.SectionIds[k] <==> k != 2
  {
    if k == 0 {
    } else if k == 1 {
    } else if k == 2 {
      assert SectionIdOf[CardTitles[k]] == "ai-generated-image-video-assets";
    } else if k == 3 {
    } else {
    }
  }

  /** The media card's link therefore reaches no section. */
  lemma MediaCardMisses()
    ensures !Anchors.LandsOnSection(SectionIdOf, "AI-Generated Media")
  {
    Anchors.LandsIff(SectionIdOf, "AI-Generated Media");
  }

  /** Apart from the media card, every card lands on a section. */
  lemma LandsIffNotMedia(k: nat)
    requires k < |CardTitles|
    ensures Anchors.LandsOnSection(SectionIdOf, CardTitles[k]) <==> CardTitles[k] != "AI-Generated Media"
  {
    Anchors.LandsIff(SectionIdOf, CardTitles[k]);
  }
}
