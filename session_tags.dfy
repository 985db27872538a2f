/**
 * The session-metadata protocol of a saved game: which tags a save writes and
 * how a load reads the human's colour and the engine binary back from them.
 * The convention: Annotator is "pinata"; the human's side carries the value
 * "Human"; the other side carries the engine binary's name.
 */
module SessionTags {
  import opened Options
  import opened Chess

  type TagMap = map<string, string>

  const Provenance := "pinata"
  const HumanMarker := "Human"

  /** The keys a save writes. */
  const SessionKeys: set<string> := {"Annotator", "Date", "Result", "White", "Black"}

  /** The session settings the program keeps in two globals. */
  datatype SessionConfig = SessionConfig(humanIsBlack: bool, engineBinary: string)

  /** A tag's value on a present game: "" stands for an absent key. */
  function Tag(tags: TagMap, key: string): (v: string)
    ensures key in tags ==> v == tags[key]
    ensures key !in tags ==> v == ""
  {
    if key in tags then tags[key] else ""
  }

  /** humanColor: the human plays Black exactly when the flag says so. */
  function HumanColor(humanIsBlack: bool): (c: Color)
    ensures c == Black <==> humanIsBlack
  {
    if humanIsBlack then Black else White
  }

  /**
   * The tag part of a load: the provenance gate, then the decode. Black ==
   * "Human" means the human is Black and White names the engine; any other
   * Black value means the human is White and Black names the engine.
   */
  function DecodeSession(tags: TagMap): (r: Option<SessionConfig>)
    ensures r.Some? <==>
      && "Annotator" in tags && tags["Annotator"] == Provenance
      && "White" in tags && tags["White"] != ""
      && "Black" in tags && tags["Black"] != ""
    ensures r.Some? ==> (r.value.humanIsBlack <==> tags["Black"] == HumanMarker)
    ensures r.Some? ==> r.value.engineBinary == if r.value.humanIsBlack then tags["White"] else tags["Black"]
    ensures r.Some? ==> r.value.engineBinary != ""
  {
    var annotator, white, black := Tag(tags, "Annotator"), Tag(tags, "White"), Tag(tags, "Black");
    if annotator != Provenance || white == "" || black == "" then None
    else if black == HumanMarker then Some(SessionConfig(true, white))
    else Some(SessionConfig(false, black))
  }

  /**
   * The tag part of a save, as the successive overwrites leave the store:
   * Annotator, Date, Result, then White and Black by the human's colour.
   */
  function EncodeSession(tags: TagMap, cfg: SessionConfig, result: string, date: string): (r: TagMap)
    ensures r.Keys == tags.Keys + SessionKeys
    ensures r["Annotator"] == Provenance && r["Date"] == date && r["Result"] == result
    ensures r[if cfg.humanIsBlack then "Black" else "White"] == HumanMarker
    ensures r[if cfg.humanIsBlack then "White" else "Black"] == cfg.engineBinary
    ensures forall k :: k in tags && k !in SessionKeys ==> r[k] == tags[k]
  {
    var stamped := tags["Annotator" := Provenance]["Date" := date]["Result" := result];
    if HumanColor(cfg.humanIsBlack) == White then
      stamped["White" := HumanMarker]["Black" := cfg.engineBinary]
    else
      stamped["White" := cfg.engineBinary]["Black" := HumanMarker]
  }

  /** Save then load gives back the session, for an engine named neither "" nor "Human". */
  lemma SaveThenLoad(tags: TagMap, cfg: SessionConfig, result: string, date: string)
    requires cfg.engineBinary != "" && cfg.engineBinary != HumanMarker
    ensures DecodeSession(EncodeSession(tags, cfg, result, date)) == Some(cfg)
  {
  }

  /**
   * Exactly when the round trip holds: the engine name must be non-empty,
   * and may be "Human" only when the human plays Black. SaveThenLoad is the
   * common case of its "if" half.
   */
  lemma RoundTripExactly(tags: TagMap, cfg: SessionConfig, result: string, date: string)
    ensures DecodeSession(EncodeSession(tags, cfg, result, date)) == Some(cfg)
      <==> cfg.engineBinary != "" && (cfg.engineBinary != HumanMarker || cfg.humanIsBlack)
  {
  }

  /** A save with an empty engine name writes a file the load gate refuses. */
  lemma EmptyEngineNotResumable(tags: TagMap, humanIsBlack: bool, result: string, date: string)
    ensures DecodeSession(EncodeSession(tags, SessionConfig(humanIsBlack, ""), result, date)) == None
  {
  }

  /** An engine named "Human" against a human playing White comes back with the sides swapped. */
  lemma HumanNamedEngineSwapsSides(tags: TagMap, result: string, date: string)
    ensures DecodeSession(EncodeSession(tags, SessionConfig(false, HumanMarker), result, date))
      == Some(SessionConfig(true, HumanMarker))
  {
  }

  /** When both sides say "Human", the load takes the Black branch. */
  lemma BothHumanDecodesAsBlack(tags: TagMap)
    requires "Annotator" in tags && tags["Annotator"] == Provenance
    requires "White" in tags && tags["White"] == HumanMarker
    requires "Black" in tags && tags["Black"] == HumanMarker
    ensures DecodeSession(tags) == Some(SessionConfig(true, HumanMarker))
  {
  }

  /**
   * Load then save keeps the White and Black tags of an accepted file exactly
   * when at least one of them is "Human"; a file with no "Human" side has its
   * White tag rewritten to "Human".
   */
  lemma LoadThenSaveKeepsPlayers(tags: TagMap, result: string, date: string)
    requires DecodeSession(tags).Some?
    ensures var r := EncodeSession(tags, DecodeSession(tags).value, result, date);
      (r["White"] == tags["White"] && r["Black"] == tags["Black"])
      <==> (tags["White"] == HumanMarker || tags["Black"] == HumanMarker)
  {
  }
}
