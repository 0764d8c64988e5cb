/** Channel bindings: which tenant a provider number belongs to and where WhatsApp messages to its
 *  operator go. The table is keyed by channel and number alone, so the last tenant to claim a number has it
 *  (internal/store/memory/store.go, internal/app/app.go, internal/app/helpers.go).
 */
module Bindings {
  import opened Learning
  import opened Strings

  /** WhatsApp modes: read-only drafts go to the operator, full control writes to customers. */
  datatype Mode = ReadOnly | FullControl

  datatype Provider = Provider(channel: string, number: string)

  datatype Binding = Binding(tenant: string, mode: Mode, draftJid: string, operatorJid: string)

  type Table = map<Provider, Binding>

  function NormalizeJid(input: string): string {
    var clean := TrimSpace(input);
    if clean == "" then ""
    else if '@' in clean then clean
    else (if clean[0] == '+' then clean[1..] else clean) + "@s.whatsapp.net"
  }

  /** A bare number, with or without a plus, becomes an address of WhatsApp; an address stays; blank is none. */
  lemma JidMeans(number: string, address: string)
    requires '@' !in number && number != "" && TrimSpace(number) == number && TrimSpace("+" + number) == "+" + number
    requires '@' in address && TrimSpace(address) == address && number[0] != '+'
    ensures NormalizeJid(number) == NormalizeJid("+" + number) == number + "@s.whatsapp.net"
    ensures NormalizeJid(address) == address && NormalizeJid("") == ""
  {
    assert ("+" + number)[1..] == number;
    assert '@' !in "+" + number;
  }

  // ----- The table

  function Telegram(number: string): Provider {
    Provider("telegram", number)
  }

  function WhatsApp(number: string): Provider {
    Provider("whatsapp", number)
  }

  /** What provisioning writes for a new tenant. */
  function Claim(b: Table, tenant: string, number: string): Table {
    b[Telegram(number) := Binding(tenant, ReadOnly, "", "")]
      [WhatsApp(number) := Binding(tenant, ReadOnly, "", NormalizeJid(number))]
  }

  predicate IsWhatsAppOf(b: Table, p: Provider, tenant: string) {
    p in b && p.channel == "whatsapp" && b[p].tenant == tenant
  }

  ghost predicate HasWhatsApp(b: Table, tenant: string) {
    exists p :: IsWhatsAppOf(b, p, tenant)
  }

  ghost function TheWhatsApp(b: Table, tenant: string): (p: Provider)
    requires HasWhatsApp(b, tenant)
    ensures IsWhatsAppOf(b, p, tenant)
  {
    var p :| IsWhatsAppOf(b, p, tenant);
    p
  }

  /** A tenant has at most one binding for a channel. */
  ghost predicate OnePerChannel(b: Table) {
    forall p, q :: p in b && q in b && b[p].tenant == b[q].tenant && p.channel == q.channel ==> p == q
  }

  lemma ClaimKeepsOne(b: Table, tenant: string, number: string)
    requires OnePerChannel(b) && forall p :: p in b ==> b[p].tenant != tenant
    ensures OnePerChannel(Claim(b, tenant, number))
  {
  }

  // ----- Consent

  function ParseMode(text: string): Option<Mode> {
    if text == "" || text == "read_only" then Some(ReadOnly)
    else if text == "full_control" then Some(FullControl)
    else None
  }

  /** The binding after an operator consented to a mode and possibly named addresses. */
  function Consented(x: Binding, number: string, mode: Mode, draft: string, operator: string): Binding {
    var named := if operator != "" then NormalizeJid(operator) else x.operatorJid;
    var own := if named == "" then NormalizeJid(number) else named;
    var chosen := if draft != "" then NormalizeJid(draft) else x.draftJid;
    x.(mode := mode, operatorJid := own, draftJid := if chosen == "" && mode == ReadOnly then own else chosen)
  }

  ghost function Consent(b: Table, tenant: string, mode: string, draft: string, operator: string): Table {
    if !HasWhatsApp(b, tenant) || ParseMode(mode).None? then b
    else
      var p := TheWhatsApp(b, tenant);
      b[p := Consented(b[p], p.number, ParseMode(mode).value, draft, operator)]
  }

  lemma ConsentKeepsOne(b: Table, tenant: string, mode: string, draft: string, operator: string)
    requires OnePerChannel(b)
    ensures OnePerChannel(Consent(b, tenant, mode, draft, operator))
    ensures Consent(b, tenant, mode, draft, operator).Keys == b.Keys
    ensures forall p :: p in b ==> Consent(b, tenant, mode, draft, operator)[p].tenant == b[p].tenant
  {
  }

  // ----- Messages to the operator in read-only mode

  /** Where a draft goes: the draft address, else the operator's, else the number itself. */
  function DraftRecipient(x: Binding, number: string): string {
    var recipient := if x.draftJid != "" then x.draftJid else if x.operatorJid != "" then x.operatorJid else number;
    if recipient == "" then NormalizeJid(number) else recipient
  }

  /** A new tenant's drafts go to its own number; a consent to read-only mode sends them to the address it names,
   *  else to the one named before, else to the operator's.
   */
  lemma DraftsGoWhereNamed(b: Table, tenant: string, number: string, draft: string, operator: string)
    requires OnePerChannel(b) && HasWhatsApp(b, tenant)
    ensures var p := TheWhatsApp(b, tenant);
      var v := Consent(b, tenant, "read_only", draft, operator);
      && p in v && v[p].mode == ReadOnly && v[p].tenant == tenant
      && (NormalizeJid(draft) != "" ==> DraftRecipient(v[p], p.number) == NormalizeJid(draft))
      && (draft == "" && b[p].draftJid != "" ==> DraftRecipient(v[p], p.number) == b[p].draftJid)
      && (draft == "" && b[p].draftJid == "" && NormalizeJid(operator) != "" ==>
        DraftRecipient(v[p], p.number) == NormalizeJid(operator))
      && (draft == "" && b[p].draftJid == "" && operator == "" && b[p].operatorJid != "" ==>
        DraftRecipient(v[p], p.number) == b[p].operatorJid)
    ensures var c := Claim(b, tenant, number);
      && Telegram(number) in c && c[Telegram(number)].tenant == tenant
      && WhatsApp(number) in c && c[WhatsApp(number)].tenant == tenant && c[WhatsApp(number)].mode == ReadOnly
      && (NormalizeJid(number) != "" ==> DraftRecipient(c[WhatsApp(number)], number) == NormalizeJid(number))
  {
    hide NormalizeJid;
    assert NormalizeJid("") == "" by {
      JidMeans("1", "@");
    }
  }

  /** A consent to full control gives it, and no other mode is ever set; an unknown one changes nothing. */
  lemma ConsentSetsMode(b: Table, tenant: string, mode: string, draft: string, operator: string)
    requires HasWhatsApp(b, tenant)
    ensures var p := TheWhatsApp(b, tenant);
      var v := Consent(b, tenant, mode, draft, operator);
      && p in v
      && (mode == "full_control" ==> v[p].mode == FullControl)
      && (mode == "" || mode == "read_only" ==> v[p].mode == ReadOnly)
      && (mode == "full_control" && draft == "" ==> v[p].draftJid == b[p].draftJid)
      && (mode == "read_only" && draft == "" && b[p].draftJid == "" ==> v[p].draftJid == v[p].operatorJid)
      && (ParseMode(mode).Some? && operator == "" && b[p].operatorJid != "" ==> v[p].operatorJid == b[p].operatorJid)
      && (mode != "full_control" && mode != "" && mode != "read_only" ==> v == b)
  {
  }

  /** The outbound guard lets a read-only message through to this recipient. */
  predicate GuardAllows(x: Binding, number: string, recipient: string) {
    var dst, draft := NormalizeJid(recipient), NormalizeJid(x.draftJid);
    var operator := if NormalizeJid(x.operatorJid) == "" then NormalizeJid(number) else NormalizeJid(x.operatorJid);
    x.mode == ReadOnly ==> dst == "" || dst == operator || (draft != "" && dst == draft)
  }

  /** In read-only mode the guard stops whatever is addressed to neither the operator nor the draft address. */
  lemma GuardStopsOthers(x: Binding, number: string, recipient: string)
    requires x.mode == ReadOnly && NormalizeJid(recipient) != ""
    requires NormalizeJid(x.operatorJid) != "" ==> NormalizeJid(recipient) != NormalizeJid(x.operatorJid)
    requires NormalizeJid(x.operatorJid) == "" ==> NormalizeJid(recipient) != NormalizeJid(number)
    requires NormalizeJid(recipient) != NormalizeJid(x.draftJid)
    ensures !GuardAllows(x, number, recipient)
  {
  }

  /** The guard never stops a draft on its way to its own recipient. */
  lemma GuardAllowsDraft(x: Binding, number: string)
    ensures GuardAllows(x, number, DraftRecipient(x, number))
  {
  }
}
