/** The release list (components/ReleaseLibrary.tsx): a status badge per
    release and the UPC column with its placeholder. */
module Library {
  import opened Types

  const DEFAULT_COLOR := "bg-slate-500/10 text-slate-400 border-slate-500/20"
  const LIVE_COLOR := "bg-emerald-500/10 text-emerald-400 border-emerald-500/20 shadow-[0_0_10px_rgba(16,185,129,0.1)]"
  const REVIEW_COLOR := "bg-purple-500/10 text-purple-400 border-purple-500/20 animate-pulse"
  const READY_COLOR := "bg-cyan-500/10 text-cyan-400 border-cyan-500/20"

  /** The badge's colour classes and its label; the label is absent when the
      status is. */
  datatype Badge = Badge(color: string, caption: Option<string>)

  /** The statuses `ReleaseMetadata` allows. */
  const STATUSES: seq<string> := ["draft", "ai-review", "ready", "distributed", "takedown"]

  /** The three statuses with a badge of their own. */
  predicate Mapped(status: Option<string>) {
    status == Some("distributed") || status == Some("ai-review") || status == Some("ready")
  }

  /** `StatusBadge`: three statuses get their own colour and label; any
      other status, a missing one included, keeps its raw text as the label
      and the slate colour. */
  function StatusBadge(status: Option<string>): (b: Badge)
    ensures !Mapped(status) <==> b.color == DEFAULT_COLOR
    ensures !Mapped(status) ==> b.caption == status
    ensures Mapped(status) ==> b.caption.Some? && b.caption != status
    ensures status == Some("distributed") ==> b.caption == Some("Live on DSPs")
    ensures status == Some("ai-review") ==> b.caption == Some("Neural Review")
    ensures status == Some("ready") ==> b.caption == Some("Ready to Ship")
  {
    if status == Some("distributed") then Badge(LIVE_COLOR, Some("Live on DSPs"))
    else if status == Some("ai-review") then Badge(REVIEW_COLOR, Some("Neural Review"))
    else if status == Some("ready") then Badge(READY_COLOR, Some("Ready to Ship"))
    else Badge(DEFAULT_COLOR, status)
  }

  /** Over the statuses a release may have, the badge label tells the status:
      no two of them share a label. */
  lemma LabelsIdentifyStatus(i: nat, j: nat)
    requires i < |STATUSES| && j < |STATUSES|
    ensures StatusBadge(Some(STATUSES[i])).caption == StatusBadge(Some(STATUSES[j])).caption <==> i == j
  {
  }

  /** The status field as the badge receives it. */
  function StatusOf(r: Release): Option<string> {
    if Status in r && r[Status].Text? then Some(r[Status].text) else None
  }

  /** `release.upc || 'PENDING'`: the UPC when it is truthy, the placeholder
      otherwise; the column is never blank. */
  function UpcShown(r: Release): (u: string)
    ensures u != []
    ensures FieldTruthy(r, Upc) && r[Upc].Text? ==> u == r[Upc].text
    ensures !FieldTruthy(r, Upc) ==> u == "PENDING"
  {
    if FieldTruthy(r, Upc) then Rendered(r, Upc) else "PENDING"
  }

  /** The three releases the list shows. */
  const MOCK_RELEASES: seq<Release> := [
    map[Id := Text("1"), Title := Text("Neon Nights"), DisplayArtist := Text("Synthwave Duo"),
        Status := Text("distributed"), PrimaryGenre := Text("Electronic"), ReleaseDate := Text("2024-10-12"),
        Upc := Text("891238123"),
        CoverArtUrl := Text("https://images.unsplash.com/photo-1614613535308-eb5fbd3d2c17?w=300&h=300&fit=crop")],
    map[Id := Text("2"), Title := Text("Acoustic Sessions"), DisplayArtist := Text("Jane Doe"),
        Status := Text("ready"), PrimaryGenre := Text("Folk"), ReleaseDate := Text("2024-11-01"),
        Upc := Text("891238444"),
        CoverArtUrl := Text("https://images.unsplash.com/photo-1493225255756-d9584f8606e9?w=300&h=300&fit=crop")],
    map[Id := Text("3"), Title := Text("Urban Echoes"), DisplayArtist := Text("The City"),
        Status := Text("ai-review"), PrimaryGenre := Text("Hip Hop"), ReleaseDate := Text("TBD"),
        CoverArtUrl := Text("https://images.unsplash.com/photo-1514525253440-b393452e8d26?w=300&h=300&fit=crop")]
  ]

  /** The rows as listed: each with the badge of its own status, and the
      third, which has no UPC, showing the placeholder. */
  lemma MockRows()
    ensures StatusBadge(StatusOf(MOCK_RELEASES[0])).caption == Some("Live on DSPs")
    ensures StatusBadge(StatusOf(MOCK_RELEASES[1])).caption == Some("Ready to Ship")
    ensures StatusBadge(StatusOf(MOCK_RELEASES[2])).caption == Some("Neural Review")
    ensures UpcShown(MOCK_RELEASES[0]) == "891238123" && UpcShown(MOCK_RELEASES[1]) == "891238444"
    ensures UpcShown(MOCK_RELEASES[2]) == "PENDING"
  {
  }
}
