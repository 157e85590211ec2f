/**
 * A card of the experience timeline: the icon chosen from the position title,
 * the marker colour cycling with the card's index, the end-date display, and
 * the expandable details.
 */
module WorkExperience {
  import opened Wrappers
  import opened Strings
  import opened Arithmetic

  datatype WorkLink = WorkLink(caption: string, url: string)

  datatype Work = Work(
    company: string,
    position: string,
    startDate: string,
    endDate: string,
    summary: string,
    highlights: seq<string>,
    tags: Option<seq<string>>,
    links: Option<seq<WorkLink>>)

  datatype Icon = Crown | Code | School | Briefcase

  /** `resolveIcon`: the first keyword found in the lower-cased position decides. */
  function ResolveIcon(position: string): (icon: Icon)
    ensures icon == Crown <==> Contains(Lower(position), "cto")
    ensures icon == Code <==> !Contains(Lower(position), "cto") && Contains(Lower(position), "developer")
    ensures icon == School <==>
      && !Contains(Lower(position), "cto")
      && !Contains(Lower(position), "developer")
      && (Contains(Lower(position), "intern") || Contains(Lower(position), "fellow"))
    ensures icon == Briefcase <==>
      !(Contains(Lower(position), "cto") || Contains(Lower(position), "developer")
        || Contains(Lower(position), "intern") || Contains(Lower(position), "fellow"))
  {
    var normalized := Lower(position);
    if Contains(normalized, "cto") then Crown
    else if Contains(normalized, "developer") then Code
    else if Contains(normalized, "intern") || Contains(normalized, "fellow") then School
    else Briefcase
  }

  /** The icon does not depend on letter case. */
  lemma ResolveIconIgnoresCase(position: string)
    ensures ResolveIcon(Lower(position)) == ResolveIcon(position)
  {
    LowerIdempotent(position);
  }

  /** A position naming both roles gets the crown: `cto` is checked first. */
  lemma CtoOutranksDeveloper()
    ensures ResolveIcon("CTO & Developer") == Crown
  {
    var u := Lower("CTO & Developer");
    assert u[0] == 'c' && u[1] == 't' && u[2] == 'o';
    assert StartsAt(u, 0, "cto");
  }

  /** Substring matching also fires inside words: "Director" contains "cto". */
  lemma DirectorGetsCrown()
    ensures ResolveIcon("Director") == Crown
  {
    var u := Lower("Director");
    assert u[4] == 'c' && u[5] == 't' && u[6] == 'o';
    assert StartsAt(u, 4, "cto");
  }

  const ACCENT_PALETTE: seq<string> := ["border-blue-500", "border-green-500", "border-yellow-500", "border-red-500"]

  /** `accentPalette[index % accentPalette.length]` for a card's index in the list. */
  function MarkerColor(index: nat): (c: string)
    ensures c in ACCENT_PALETTE
  {
    ACCENT_PALETTE[index % |ACCENT_PALETTE|]
  }

  /** The colours repeat every four cards. */
  lemma MarkerColorPeriodic(index: nat)
    ensures MarkerColor(index + 4) == MarkerColor(index)
  {
    ModShift(index, 4);
  }

  /** Neighbouring cards never share a colour. */
  lemma NeighboursDiffer(index: nat)
    ensures MarkerColor(index) != MarkerColor(index + 1)
  {
    var k := index / 4;
    ModInBlock(index, k, 4);
    if index % 4 == 3 {
      ModInBlock(index + 1, k + 1, 4);
    } else {
      ModInBlock(index + 1, k, 4);
    }
  }

  /** `job.endDate || 'Present'` */
  function EndDateDisplay(endDate: string): (d: string)
    ensures d != ""
    ensures endDate != "" ==> d == endDate
    ensures endDate == "" ==> d == "Present"
  {
    if endDate != "" then endDate else "Present"
  }

  /** What an expanded card adds below its summary. */
  datatype Details = Details(highlights: seq<string>, links: seq<WorkLink>)

  function DetailsShown(job: Work, open: bool): (d: Option<Details>)
    ensures d.Some? <==> open
    ensures d.Some? ==> d.value.highlights == job.highlights
    ensures d.Some? && job.links.Some? ==> d.value.links == job.links.value
    ensures d.Some? && job.links.None? ==> d.value.links == []
  {
    if open then Some(Details(job.highlights, job.links.GetOr([]))) else None
  }

  /** A timeline card's expand state. */
  class TimelineCard {
    var open: bool

    constructor()
      ensures !open
    {
      open := false;
    }

    /** The Show/Hide Details button. */
    method Toggle()
      modifies this
      ensures open == !old(open)
    {
      open := !open;
    }
  }
}
