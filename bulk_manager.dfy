/**
 * The browser client's contact list and chat history (`WhatsAppBulkManager`),
 * its vCard writer (`VCFGenerator`) and its column-name heuristic.
 */
module BulkManager {
  import opened Text
  import opened Wrappers
  import opened Seqs
  import opened Cleaner
  import Vcard

  /** A parsed spreadsheet row: column name to cell. */
  type SheetRow = map<string, Cell>

  const NotInformed: string := "Não Informado"

  /** The column names the user mapped for student, phone, guardian and class. */
  datatype Keys = Keys(aluno: string, phone: string, responsavel: string, turma: string)

  /** One entry of `processedContacts`. */
  datatype Contact = Contact(
    id: nat, name: string, originalPhone: string, cleanedPhone: string, ddd: string, status: Status,
    responsavel: Cell, aluno: Cell, turma: Cell, originalData: SheetRow)

  /** `row[key]`. */
  function Lookup(row: SheetRow, key: string): Cell {
    if key in row then row[key] else Absent
  }

  /** JavaScript's `value || fallback`. */
  function Or(value: Cell, fallback: Cell): (r: Cell)
    ensures !Falsy(value) ==> r == value
    ensures Falsy(value) ==> r == fallback
  {
    if Falsy(value) then fallback else value
  }

  /** The record `processContacts` builds for the row at 1-based position `id`. */
  function BuildContact(row: SheetRow, id: nat, keys: Keys): Contact {
    var aluno := Or(Lookup(row, keys.aluno), Str(NotInformed));
    var phone := Or(Lookup(row, keys.phone), Str(""));
    var cleaning := Clean(phone);
    Contact(id, Trim(CellString(aluno)), Trim(CellString(phone)), cleaning.cleanedPhone, cleaning.ddd,
            cleaning.status, Or(Lookup(row, keys.responsavel), Str(NotInformed)), aluno,
            Or(Lookup(row, keys.turma), Str(NotInformed)), row)
  }

  /** Every row's record, in sheet order, ids counting from 1. */
  function BuildAll(rows: seq<SheetRow>, keys: Keys): (r: seq<Contact>)
    ensures |r| == |rows|
  {
    MapIndexed(rows, (row: SheetRow, id: nat) => BuildContact(row, id, keys))
  }

  predicate IsInvalid(c: Contact) { c.status == Invalid }

  predicate IsKept(c: Contact) { c.status != Invalid }

  /** Non-invalid contacts first, invalid ones last, each group in its original order. */
  function Partition(s: seq<Contact>): seq<Contact> {
    Filter(s, IsKept) + Filter(s, IsInvalid)
  }

  /** The vCard display name of a contact. */
  function DisplayName(c: Contact): string {
    if c.name != [] then c.name else "Unknown"
  }

  /** The six lines `generateSingle` writes for a contact. */
  function ContactCard(c: Contact): seq<string> {
    Vcard.CardLines(DisplayName(c), DisplayName(c) + ";;;;", c.cleanedPhone)
  }

  /** Contacts `generate` writes: a cleaned phone that starts with `+`. */
  predicate HasE164(c: Contact) { c.cleanedPhone != [] && StartsWith(c.cleanedPhone, "+") }

  function ContactCards(cs: seq<Contact>): (cards: seq<seq<string>>)
    ensures |cards| == |cs|
    ensures forall i :: 0 <= i < |cs| ==> cards[i] == ContactCard(cs[i])
  {
    seq(|cs|, i requires 0 <= i < |cs| => ContactCard(cs[i]))
  }

  /** `VCFGenerator.generateSingle(contact)`. */
  function GenerateSingle(c: Contact): string {
    Join(ContactCard(c), "\n")
  }

  /** `VCFGenerator.generate(contacts)`: one block per contact with an E.164 phone, joined by newlines. */
  function Generate(contacts: seq<Contact>): string {
    Join(Vcard.Blocks(ContactCards(Filter(contacts, HasE164))), "\n")
  }

  /** A chat history entry. */
  datatype Message = Message(role: string, text: string)

  const MaxHistory: nat := 20

  /** The text stored for a message: AI replies lose every `*` and `#`. */
  function StoredText(text: string, role: string): string {
    if role == "ai" then RemoveChars(text, {'*', '#'}) else text
  }

  /** The history after a non-silent message: the oldest entry goes first once the bound is reached. */
  function Push(history: seq<Message>, m: Message): seq<Message> {
    (if |history| >= MaxHistory then history[1..] else history) + [m]
  }

  /** The history after a run of non-silent messages. */
  function PushAll(history: seq<Message>, ms: seq<Message>): seq<Message>
    decreases |ms|
  {
    if ms == [] then history else Push(PushAll(history, ms[..|ms| - 1]), ms[|ms| - 1])
  }

  /** The part of `WhatsAppBulkManager` whose fields the modelled methods update. */
  class Manager {
    var contacts: seq<SheetRow>
    var processedContacts: seq<Contact>
    var chatHistory: seq<Message>

    constructor (rows: seq<SheetRow>)
      ensures contacts == rows && processedContacts == [] && chatHistory == []
    {
      contacts := rows;
      processedContacts := [];
      chatHistory := [];
    }

    /**
     * `processContacts`: builds every row's record, valid ones to one list
     * and invalid ones to another, and stores the first followed by the second.
     */
    method ProcessContacts(keys: Keys)
      modifies this
      ensures processedContacts == Partition(BuildAll(contacts, keys))
      ensures contacts == old(contacts) && chatHistory == old(chatHistory)
    {
      var processedList: seq<Contact> := [];
      var invalidList: seq<Contact> := [];
      var rows := contacts;
      ghost var built: seq<Contact> := [];
      for i := 0 to |rows|
        invariant contacts == rows && chatHistory == old(chatHistory)
        invariant built == BuildAll(rows[..i], keys)
        invariant processedList == Filter(built, IsKept)
        invariant invalidList == Filter(built, IsInvalid)
      {
        var contactData := BuildContact(rows[i], i + 1, keys);
        MapIndexedSnoc(rows, (row: SheetRow, id: nat) => BuildContact(row, id, keys), i);
        FilterSnoc(built, contactData, IsKept);
        FilterSnoc(built, contactData, IsInvalid);
        if contactData.status == Invalid {
          invalidList := invalidList + [contactData];
        } else {
          processedList := processedList + [contactData];
        }
        built := built + [contactData];
      }
      assert rows[..|rows|] == rows;
      processedContacts := processedList + invalidList;
    }

    /**
     * `updateContactPhone`: for an existing position, re-cleans the new
     * value into that contact and restores the valid-first order; any other
     * index changes nothing.
     */
    method UpdateContactPhone(index: int, value: string)
      modifies this
      ensures 0 <= index < |old(processedContacts)| ==>
        processedContacts == Partition(old(processedContacts)[index := WithPhone(old(processedContacts)[index], value)])
      ensures !(0 <= index < |old(processedContacts)|) ==> processedContacts == old(processedContacts)
      ensures contacts == old(contacts) && chatHistory == old(chatHistory)
    {
      if 0 <= index < |processedContacts| {
        var contact := processedContacts[index];
        var cleaningResult := Clean(Str(value));
        contact := contact.(cleanedPhone := cleaningResult.cleanedPhone, ddd := cleaningResult.ddd,
                            status := cleaningResult.status, originalPhone := value);
        var list := processedContacts[index := contact];
        var validList := Filter(list, IsKept);
        var invalidList := Filter(list, IsInvalid);
        processedContacts := validList + invalidList;
      }
    }

    /**
     * `addMessage`: a silent message leaves the history alone; any other is
     * appended with its stored text, dropping the oldest entry once twenty
     * are kept, so the history never grows past twenty.
     */
    method AddMessage(text: string, role: string, isSilent: bool)
      modifies this
      ensures isSilent ==> chatHistory == old(chatHistory)
      ensures !isSilent ==> chatHistory == Push(old(chatHistory), Message(role, StoredText(text, role)))
      ensures |old(chatHistory)| <= MaxHistory ==> |chatHistory| <= MaxHistory
      ensures contacts == old(contacts) && processedContacts == old(processedContacts)
    {
      var cleanedText := text;
      if role == "ai" {
        cleanedText := RemoveChars(text, {'*', '#'});
      }
      if !isSilent && |chatHistory| >= MaxHistory {
        chatHistory := chatHistory[1..];
      }
      var messageObject := Message(role, cleanedText);
      if !isSilent {
        chatHistory := chatHistory + [messageObject];
      }
    }
  }

  /** The contact after `updateContactPhone` re-cleaned `value` into it. */
  function WithPhone(c: Contact, value: string): (r: Contact)
    ensures r.status == Clean(Str(value)).status && r.originalPhone == value
    ensures r.cleanedPhone == Clean(Str(value)).cleanedPhone && r.ddd == Clean(Str(value)).ddd
    ensures r.id == c.id && r.name == c.name && r.originalData == c.originalData
    ensures r.responsavel == c.responsavel && r.aluno == c.aluno && r.turma == c.turma
  {
    var cleaning := Clean(Str(value));
    c.(cleanedPhone := cleaning.cleanedPhone, ddd := cleaning.ddd, status := cleaning.status, originalPhone := value)
  }

  /** Row `k` becomes the record with id `k + 1` built from that row. */
  lemma BuildAllAt(rows: seq<SheetRow>, keys: Keys, k: nat)
    requires k < |rows|
    ensures BuildAll(rows, keys)[k] == BuildContact(rows[k], k + 1, keys)
    ensures BuildAll(rows, keys)[k].id == k + 1 && BuildAll(rows, keys)[k].originalData == rows[k]
  {
    MapIndexedAt(rows, (row: SheetRow, id: nat) => BuildContact(row, id, keys), k);
  }

  /** The reordered list holds exactly the contacts it was given. */
  lemma PartitionPermutes(s: seq<Contact>)
    ensures multiset(Partition(s)) == multiset(s)
    ensures |Partition(s)| == |s|
  {
    FilterSplitsMultiset(s, IsKept, IsInvalid);
  }

  /** No invalid contact precedes a non-invalid one. */
  lemma PartitionInvalidLast(s: seq<Contact>)
    ensures var p := Partition(s);
      forall i, j :: 0 <= i < j < |p| && IsInvalid(p[i]) ==> IsInvalid(p[j])
  {
    var p := Partition(s);
    var kept := Filter(s, IsKept);
    forall i, j | 0 <= i < j < |p| ensures IsInvalid(p[i]) ==> IsInvalid(p[j]) {
      if i < |kept| {
        assert p[i] == kept[i];
      } else {
        assert p[j] == Filter(s, IsInvalid)[j - |kept|];
      }
    }
  }

  /** Within each group the original relative order is kept. */
  lemma {:induction false} PartitionStable(s: seq<Contact>)
    ensures Filter(Partition(s), IsKept) == Filter(s, IsKept)
    ensures Filter(Partition(s), IsInvalid) == Filter(s, IsInvalid)
  {
    var kept := Filter(s, IsKept);
    var invalid := Filter(s, IsInvalid);
    FilterAppend(kept, invalid, IsKept);
    FilterAppend(kept, invalid, IsInvalid);
    FilterAll(kept, IsKept);
    FilterNone(kept, IsInvalid);
    FilterAll(invalid, IsInvalid);
    FilterNone(invalid, IsKept);
    assert kept + [] == kept;
    assert [] + invalid == invalid;
  }

  /** Reordering an already reordered list changes nothing. */
  lemma PartitionIdempotent(s: seq<Contact>)
    ensures Partition(Partition(s)) == Partition(s)
  {
    PartitionStable(s);
  }

  /**
   * After `processContacts` the list is a reordering of the records built
   * from the rows, invalid ones last, and ids follow the sheet positions.
   */
  lemma ProcessedContactsShape(rows: seq<SheetRow>, keys: Keys)
    ensures var built := BuildAll(rows, keys);
      var p := Partition(built);
      && multiset(p) == multiset(built)
      && (forall i, j :: 0 <= i < j < |p| && IsInvalid(p[i]) ==> IsInvalid(p[j]))
      && (forall k :: 0 <= k < |rows| ==> built[k].id == k + 1)
  {
    var built := BuildAll(rows, keys);
    PartitionPermutes(built);
    PartitionInvalidLast(built);
    forall k | 0 <= k < |rows| ensures built[k].id == k + 1 {
      BuildAllAt(rows, keys, k);
    }
  }

  /** AI text keeps no `*` or `#`, and text without them is stored unchanged. */
  lemma StoredTextClean(text: string, role: string)
    ensures role == "ai" ==> '*' !in StoredText(text, role) && '#' !in StoredText(text, role)
    ensures role != "ai" ==> StoredText(text, role) == text
    ensures '*' !in text && '#' !in text ==> StoredText(text, role) == text
  {
    if '*' !in text && '#' !in text {
      RemoveCharsKeeps(text, {'*', '#'});
    }
  }

  /** From a history within the bound, a run of messages leaves the last twenty entries of the whole conversation. */
  lemma {:induction false} PushAllKeepsLatest(history: seq<Message>, ms: seq<Message>)
    requires |history| <= MaxHistory
    ensures var all := history + ms;
      PushAll(history, ms) == all[if |all| > MaxHistory then |all| - MaxHistory else 0..]
    decreases |ms|
  {
    if ms == [] {
      assert history + ms == history;
    } else {
      var prev := ms[..|ms| - 1];
      PushAllKeepsLatest(history, prev);
      var all := history + ms;
      var before := history + prev;
      assert all == before + [ms[|ms| - 1]];
    }
  }

  lemma CardHasNoNewline(c: Contact)
    requires '\n' !in c.name && '\n' !in c.cleanedPhone
    ensures forall j :: 0 <= j < 6 ==> '\n' !in ContactCard(c)[j]
  {
    var n := DisplayName(c);
    assert '\n' !in n;
    assert '\n' !in "FN:" + n;
    assert '\n' !in "N:" + (n + ";;;;");
    assert '\n' !in "TEL;TYPE=CELL:" + c.cleanedPhone;
  }

  /** The block for one contact reads back as its six lines when no field holds a newline. */
  lemma GenerateSingleLines(c: Contact)
    requires '\n' !in c.name && '\n' !in c.cleanedPhone
    ensures Split(GenerateSingle(c), "\n") == ContactCard(c)
  {
    CardHasNoNewline(c);
    JoinSplitRoundTrip(ContactCard(c), '\n');
  }

  /**
   * `generate` writes exactly one card per contact whose cleaned phone
   * starts with `+`, in list order, and the file reads back as those cards.
   */
  lemma GenerateReadsBack(contacts: seq<Contact>)
    requires forall i :: 0 <= i < |contacts| ==> '\n' !in contacts[i].name && '\n' !in contacts[i].cleanedPhone
    ensures var chosen := Filter(contacts, HasE164);
      Vcard.ParseCards(Generate(contacts)) == ContactCards(chosen)
      && forall i :: 0 <= i < |chosen| ==> HasE164(chosen[i]) && chosen[i] in contacts
  {
    var chosen := Filter(contacts, HasE164);
    var cards := ContactCards(chosen);
    forall k | 0 <= k < |cards| ensures |cards[k]| == 6 && forall j :: 0 <= j < 6 ==> '\n' !in cards[k][j] {
      assert chosen[k] in contacts;
      CardHasNoNewline(chosen[k]);
    }
    Vcard.RenderRoundTrip(cards);
  }

  /** The JavaScript normalisation of a header: lower-cased, every character outside `[a-z0-9]` turned into a space. */
  function JsHeaderKey(header: string): (r: string)
    ensures |r| == |header|
  {
    seq(|header|, i requires 0 <= i < |header| =>
      var c := LowerChar(header[i]);
      if 'a' <= c <= 'z' || '0' <= c <= '9' then c else ' ')
  }

  /** Does a header match any of the patterns? */
  predicate HeaderMatches(header: string, patterns: seq<string>) {
    exists p :: p in patterns && Contains(JsHeaderKey(header), p)
  }

  /** `findHeuristicColumn(headers, patterns)`: the first matching header, or `''`. */
  function FindHeuristicColumn(headers: seq<string>, patterns: seq<string>): (r: string)
    ensures (forall k :: 0 <= k < |headers| ==> !HeaderMatches(headers[k], patterns)) ==> r == ""
    ensures (exists k :: 0 <= k < |headers| && HeaderMatches(headers[k], patterns)) ==>
      exists k :: 0 <= k < |headers| && r == headers[k] && HeaderMatches(headers[k], patterns)
        && forall j :: 0 <= j < k ==> !HeaderMatches(headers[j], patterns)
  {
    match FirstIndex(headers, (h: string) => HeaderMatches(h, patterns))
    case Some(k) => headers[k]
    case None => ""
  }
}
