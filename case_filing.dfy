/** The citizen's case-filing form: five fields, a submit that only records
    that the form was sent, and the official portals listed for the chosen
    kind of case. */
module CaseFiling {
  import opened Core

  /** An external portal: its display name and address. */
  datatype PortalLink = PortalLink(name: string, url: string)

  const ECourts := PortalLink("e-Courts Services", "https://ecourts.gov.in/ecourts_home/")

  /** The portals for each kind of case. */
  const PortalLinks: map<string, seq<PortalLink>> := map[
    "consumer" := [
      PortalLink("National Consumer Helpline", "https://consumerhelpline.gov.in/"),
      PortalLink("E-Daakhil Portal", "https://edaakhil.nic.in/")],
    "property" := [
      ECourts,
      PortalLink("National Generic Document Registration System", "https://ngdrs.gov.in/")],
    "family" := [ECourts],
    "cheque" := [
      PortalLink("e-Courts Services for Negotiable Instruments Act", "https://ecourts.gov.in/ecourts_home/")],
    "otherCivil" := [ECourts]
  ]

  /** The kinds of case the form offers. */
  predicate IsCaseTypeKey(caseType: string) {
    caseType == "consumer" || caseType == "property" || caseType == "family"
    || caseType == "cheque" || caseType == "otherCivil"
  }

  /** The links listed after submission: the chosen kind's portals, or none
      when no kind (or an unknown one) is chosen. */
  function LinksToShow(caseType: string): (links: seq<PortalLink>)
    ensures links != [] <==> IsCaseTypeKey(caseType)
    ensures links != [] ==> links == PortalLinks[caseType]
  {
    if caseType in PortalLinks then PortalLinks[caseType] else []
  }

  /** Every listed portal is reached over https. */
  lemma LinksAreHttps(caseType: string, i: int)
    requires 0 <= i < |LinksToShow(caseType)|
    ensures StartsWith(LinksToShow(caseType)[i].url, "https://")
  {
  }

  /** Two portals for consumer and property matters, one for each other kind;
      the family and other civil matters share the same e-Courts link. */
  lemma LinkCounts()
    ensures |LinksToShow("consumer")| == 2 && |LinksToShow("property")| == 2
    ensures |LinksToShow("family")| == 1 && |LinksToShow("cheque")| == 1 && |LinksToShow("otherCivil")| == 1
    ensures LinksToShow("family") == LinksToShow("otherCivil") == [ECourts]
    ensures LinksToShow("") == []
  {
  }

  /** The names of the fields, each also the key the form state keeps it under. */
  const FieldNames := ["fullName", "address", "phone", "email", "caseType"]

  /** The result panel below the form. */
  datatype ResultPanel = NotSubmitted | Portals(links: seq<PortalLink>) | NoLinksNotice

  /** The panel shown: nothing before submission; afterwards the chosen kind's
      portals, or the "no links" notice when it has none. */
  function Panel(formSubmitted: bool, caseType: string): (p: ResultPanel)
    ensures p.NotSubmitted? <==> !formSubmitted
    ensures p.Portals? <==> formSubmitted && IsCaseTypeKey(caseType)
    ensures p.Portals? ==> p.links == PortalLinks[caseType] && p.links != []
  {
    if !formSubmitted then NotSubmitted
    else if |LinksToShow(caseType)| > 0 then Portals(LinksToShow(caseType))
    else NoLinksNotice
  }

  /** The form component's state. */
  class FilingForm {
    var formData: map<string, string>
    var formSubmitted: bool

    /** Every field has a value. */
    ghost predicate Valid()
      reads this
    {
      forall k :: k in FieldNames ==> k in formData
    }

    /** On mount: every field empty, nothing submitted. */
    constructor ()
      ensures Valid()
      ensures formData == map k | k in FieldNames :: ""
      ensures !formSubmitted
    {
      formData := map k | k in FieldNames :: "";
      formSubmitted := false;
    }

    /** The chosen kind of case. */
    function CaseType(): string
      reads this
      requires Valid()
    {
      formData["caseType"]
    }

    /** handleInputChange: the edited field takes the new value and every
        other field keeps its own. */
    method HandleInputChange(name: string, value: string)
      requires Valid()
      modifies this`formData
      ensures Valid()
      ensures formData == old(formData)[name := value]
      ensures formData[name] == value
      ensures forall k :: k in old(formData) && k != name ==> formData[k] == old(formData)[k]
    {
      formData := formData[name := value];
    }

    /** handleSubmit: the form is marked as sent and its fields are kept;
        submitting again changes nothing further. */
    method HandleSubmit()
      modifies this`formSubmitted
      ensures formSubmitted
    {
      formSubmitted := true;
    }

    /** What the panel below the form shows. */
    function ShownPanel(): (p: ResultPanel)
      reads this
      requires Valid()
      ensures p.NotSubmitted? <==> !formSubmitted
      ensures p.Portals? <==> formSubmitted && IsCaseTypeKey(CaseType())
      ensures p.Portals? ==> p.links == PortalLinks[CaseType()]
      ensures p.NoLinksNotice? <==> formSubmitted && !IsCaseTypeKey(CaseType())
    {
      Panel(formSubmitted, CaseType())
    }
  }

  /** Submitting without choosing a kind of case shows the notice, not a
      list of portals. */
  lemma SubmitWithoutCaseType()
    ensures Panel(true, "") == NoLinksNotice
  {
  }
}
