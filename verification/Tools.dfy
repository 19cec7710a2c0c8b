// Permission tiers: the table, the profile override, and the bump after external content.
module Tools {
  import opened Wrappers

  datatype Tier = Green | Yellow | Red

  function Rank(t: Tier): nat {
    match t
    case Green => 0
    case Yellow => 1
    case Red => 2
  }

  const WRITE_TOOLS: set<string> := {
    "create_draft", "draft_email", "confirm_draft", "discard_draft", "send_email", "reply_email", "send_message",
    "delete_email", "delete_event", "create_task", "update_belief", "nudge", "send_document", "log_signal",
    "update_checklist_item", "create_checklist_template", "create_reminder", "cancel_reminder", "delete_reminder",
    "spawn_subagent", "connect_account", "disconnect_account", "backfill_email_alias", "backfill_signals_provenance",
    "backfill_contacts_origin"
  }

  const TOOL_TIERS: map<string, Tier> := map[
    "list_emails" := Green, "triage_email" := Green, "list_events" := Green, "search_files" := Green,
    "recall" := Green, "lookup_contact" := Green, "list_checklists" := Green, "get_checklist" := Green,
    "list_reminders" := Green, "list_accounts" := Green, "list_sent_emails" := Green,
    "create_draft" := Yellow, "draft_email" := Yellow, "confirm_draft" := Yellow, "discard_draft" := Yellow,
    "update_belief" := Yellow, "create_task" := Yellow, "nudge" := Yellow, "send_document" := Yellow,
    "log_signal" := Yellow, "update_checklist_item" := Yellow, "create_checklist_template" := Yellow,
    "create_reminder" := Yellow, "cancel_reminder" := Yellow, "spawn_subagent" := Yellow,
    "connect_account" := Yellow, "disconnect_account" := Yellow, "backfill_email_alias" := Yellow,
    "backfill_signals_provenance" := Yellow, "backfill_contacts_origin" := Yellow,
    "delete_reminder" := Red, "send_email" := Red, "reply_email" := Red, "send_message" := Red,
    "delete_email" := Red, "delete_event" := Red
  ]

  datatype Tables = Tables(tiers: map<string, Tier>, writes: set<string>)

  const TABLES := Tables(TOOL_TIERS, WRITE_TOOLS)

  // The safety interlock: every write tool has an explicit tier above Green.
  predicate Interlocked(t: Tables) {
    forall w :: w in t.writes ==> w in t.tiers && t.tiers[w] != Green
  }

  lemma TablesAreInterlocked()
    ensures Interlocked(TABLES)
  {
    forall w | w in WRITE_TOOLS ensures w in TOOL_TIERS && TOOL_TIERS[w] != Green {
      WriteToolIsTiered(w);
    }
  }

  lemma WriteToolIsTiered(w: string)
    requires w in WRITE_TOOLS
    ensures w in TOOL_TIERS && TOOL_TIERS[w] != Green
  {
  }

  // Tools that are not listed are Green.
  function BaseTier(t: Tables, tool: string): Tier {
    if tool in t.tiers then t.tiers[tool] else Green
  }

  // A profile value; anything but a string has no lower() and raises.
  datatype Override = NotText | Word(text: string)

  function Lower(s: string): string {
    seq(|s|, i requires 0 <= i < |s| => if 'A' <= s[i] <= 'Z' then s[i] - 'A' + 'a' else s[i])
  }

  function ParseTier(s: string): Option<Tier> {
    if s == "green" then Some(Green)
    else if s == "yellow" then Some(Yellow)
    else if s == "red" then Some(Red)
    else None
  }

  function NameOf(t: Tier): string {
    match t
    case Green => "green"
    case Yellow => "yellow"
    case Red => "red"
  }

  // A profile names the tiers in any case.
  lemma TiersAreNamed(t: Tier, s: string)
    ensures ParseTier(s) == Some(t) <==> s == NameOf(t)
    ensures ParseTier(Lower("GREEN")) == Some(Green) && ParseTier(Lower("Yellow")) == Some(Yellow)
  {
    assert Lower("GREEN") == "green" && Lower("Yellow") == "yellow";
  }

  predicate External(source: Option<string>) {
    source.Some? && "mcp:" <= source.value
  }

  lemma ExternalIs(name: string)
    ensures External(Some("mcp:" + name)) && !External(None) && !External(Some("user"))
  {
    assert ("mcp:" + name)[..4] == "mcp:";
    assert "mcp:"[0] != "user"[0];
  }

  // Err is an exception.
  function ResolveTier(t: Tables, tool: string, overrides: map<string, Override>, source: Option<string>)
    : Result<Tier> {
    if tool in overrides && overrides[tool].NotText? then Err
    else
      var asked := if tool in overrides then ParseTier(Lower(overrides[tool].text)) else None;
      var base := BaseTier(t, tool);
      var relaxed := if asked.Some? && Rank(asked.value) < Rank(base) then asked.value else base;
      if External(source) && tool in t.writes then
        Ok(match relaxed { case Green => Yellow case Yellow => Red case Red => Red })
      else Ok(relaxed)
  }

  const FINAL_TOOLS: set<string> :=
    {"delete_reminder", "send_email", "reply_email", "send_message", "delete_email", "delete_event"}

  // What goes out or deletes is Red, before external content and after it, unless the profile
  // speaks of it.
  lemma FinalToolsAreRed(tool: string, overrides: map<string, Override>, source: Option<string>)
    requires tool !in overrides && tool in FINAL_TOOLS
    ensures ResolveTier(TABLES, tool, overrides, source) == Ok(Red)
  {
  }

  function Least(a: nat, b: nat): nat { if a < b then a else b }

  // Without external content the tier is the lower one of the table's and the profile's; after it
  // a write tool, and no other, goes up by one step as far as there is one.
  lemma TierIs(t: Tables, tool: string, overrides: map<string, Override>, source: Option<string>)
    ensures var plain, r := ResolveTier(t, tool, overrides, None), ResolveTier(t, tool, overrides, source);
            && (plain.Err? <==> tool in overrides && overrides[tool].NotText?) && (r.Err? <==> plain.Err?)
            && (plain.Ok? && tool in overrides && ParseTier(Lower(overrides[tool].text)).Some? ==>
                  Rank(plain.value)
                  == Least(Rank(BaseTier(t, tool)), Rank(ParseTier(Lower(overrides[tool].text)).value)))
            && (tool !in overrides || (plain.Ok? && ParseTier(Lower(overrides[tool].text)).None?) ==>
                  plain == Ok(BaseTier(t, tool)))
            && (r.Ok? ==> Rank(r.value) == if External(source) && tool in t.writes
                                           then Least(Rank(plain.value) + 1, 2) else Rank(plain.value))
  {
  }

  // A profile can only relax a tier, and the bump is the only thing that can tighten one.
  lemma OverrideOnlyRelaxes(t: Tables, tool: string, overrides: map<string, Override>, source: Option<string>)
    requires ResolveTier(t, tool, overrides, source).Ok?
    ensures var r, base := Rank(ResolveTier(t, tool, overrides, source).value), Rank(BaseTier(t, tool));
            && r <= base + 1
            && (r > base ==> External(source) && tool in t.writes)
            && (r < base ==> tool in overrides && ParseTier(Lower(overrides[tool].text)).Some?)
            && r >= Rank(ResolveTier(t, tool, overrides, None).value)
  {
  }

  // After external content a write tool needs the user's confirmation, unless the profile has
  // made that very tool green; and even then it is audited.
  lemma WritesAfterExternalContent(t: Tables, tool: string, overrides: map<string, Override>, source: Option<string>)
    requires Interlocked(t) && tool in t.writes && External(source)
    requires ResolveTier(t, tool, overrides, source).Ok?
    ensures ResolveTier(t, tool, overrides, source).value == Red <==>
            !(tool in overrides && Lower(overrides[tool].text) == "green")
    ensures ResolveTier(t, tool, overrides, source).value != Green
  {
  }
}
