/**
 * The simple storage module (src/lib/storage.ts): appointments, chat
 * messages and the editable page texts under the keys
 * 'clinic_appointments', 'clinic_chat_messages' and 'clinic_editable_texts'.
 * A missing appointments or chat key reads as empty; a missing texts key
 * is seeded with three defaults on first read, so that field is an Option.
 * The clock is the ISO time stamp `now` passed to each operation.
 */
module Storage {
  import opened Types
  import opened Seqs

  function IdIsNot(id: string): Appointment -> bool
  {
    (a: Appointment) => a.id != id
  }

  /** `appointments.filter(apt => apt.id !== id)`. */
  function WithoutId(s: seq<Appointment>, id: string): (r: seq<Appointment>)
    ensures forall a :: a in r <==> a in s && a.id != id
    ensures forall k :: 0 <= k < |r| ==> r[k].id != id
  {
    Filter(s, IdIsNot(id))
  }

  /** Deleting keeps the survivors in their order: it distributes over concatenation. */
  lemma DeleteKeepsOrder(s: seq<Appointment>, t: seq<Appointment>, id: string)
    ensures WithoutId(s + t, id) == WithoutId(s, id) + WithoutId(t, id)
  {
    FilterAppend(s, t, IdIsNot(id));
  }

  /** Deleting an id no entry has leaves the collection as it was. */
  lemma DeleteAbsentId(s: seq<Appointment>, id: string)
    requires forall k :: 0 <= k < |s| ==> s[k].id != id
    ensures WithoutId(s, id) == s
  {
    FilterAll(s, IdIsNot(id));
  }

  /** Deleting removes exactly the entries with the id: the count drops by that many. */
  lemma DeleteCount(s: seq<Appointment>, id: string)
    ensures |WithoutId(s, id)| == |s| - Count(s, (a: Appointment) => a.id == id)
  {
    var hit := (a: Appointment) => a.id == id;
    if s != [] {
      DeleteCount(s[1..], id);
      assert s == [s[0]] + s[1..];
      FilterAppend([s[0]], s[1..], IdIsNot(id));
      FilterAppend([s[0]], s[1..], hit);
    }
  }

  /** The texts written when none are stored; ids '1'..'3'. */
  function DefaultTexts(now: string): (r: seq<EditableText>)
    ensures |r| == 3
    ensures r[0].id == "1" && r[1].id == "2" && r[2].id == "3"
    ensures r[0].key == "clinic_name" && r[1].key == "clinic_description" && r[2].key == "working_hours"
    ensures forall k :: 0 <= k < 3 ==> r[k].lastModified == now
  {
    [ EditableText("1", "clinic_name", "عيادة الدكتور مصطفى اليوسف", now),
      EditableText("2", "clinic_description", "عيادة متخصصة في تقديم أفضل الخدمات الطبية", now),
      EditableText("3", "working_hours", "ساعات العمل: من 9 صباحاً إلى 6 مساءً", now) ]
  }

  /** What reading the texts yields: the stored list, or the defaults. */
  function StoredOrDefault(stored: Option<seq<EditableText>>, now: string): seq<EditableText>
  {
    match stored
    case Some(texts) => texts
    case None => DefaultTexts(now)
  }

  /** `texts.findIndex(text => text.id === id)`. */
  function TextIndex(texts: seq<EditableText>, id: string): (r: Option<nat>)
    ensures r.None? <==> forall j :: 0 <= j < |texts| ==> texts[j].id != id
    ensures r.Some? ==> (r.value < |texts| && texts[r.value].id == id &&
      forall j :: 0 <= j < r.value ==> texts[j].id != id)
  {
    FindFirst(texts, (t: EditableText) => t.id == id)
  }

  /** `texts.find(t => t.key === key)`, as an index. */
  function KeyIndex(texts: seq<EditableText>, key: string): (r: Option<nat>)
    ensures r.Some? <==> exists j :: 0 <= j < |texts| && texts[j].key == key
    ensures r.Some? ==> (r.value < |texts| && texts[r.value].key == key &&
      forall j :: 0 <= j < r.value ==> texts[j].key != key)
  {
    FindFirst(texts, (t: EditableText) => t.key == key)
  }

  /** The content of the first text with the key, or "" when there is none. */
  function TextByKey(texts: seq<EditableText>, key: string): (r: string)
    ensures (forall j :: 0 <= j < |texts| ==> texts[j].key != key) ==> r == ""
    ensures forall i :: (0 <= i < |texts| && texts[i].key == key &&
      (forall j :: 0 <= j < i ==> texts[j].key != key)) ==> r == texts[i].content
  {
    match KeyIndex(texts, key)
    case Some(i) => texts[i].content
    case None => ""
  }

  /**
   * The texts after the first one with `id` gets new content and time
   * stamp: only that text changes; with no such text nothing changes.
   */
  function SetTextContent(texts: seq<EditableText>, id: string, content: string, now: string)
    : (r: seq<EditableText>)
    ensures |r| == |texts|
    ensures TextIndex(texts, id).None? ==> r == texts
    ensures TextIndex(texts, id).Some? ==>
      var i := TextIndex(texts, id).value;
      && r[i] == EditableText(texts[i].id, texts[i].key, content, now)
      && forall j :: 0 <= j < |texts| && j != i ==> r[j] == texts[j]
  {
    match TextIndex(texts, id)
    case Some(i) => texts[i := texts[i].(content := content, lastModified := now)]
    case None => texts
  }

  /**
   * Reading a key after updating, by id, the first text that has that key
   * returns the new content.
   */
  lemma UpdateThenRead(texts: seq<EditableText>, id: string, key: string, content: string, now: string)
    requires TextIndex(texts, id).Some? && KeyIndex(texts, key) == TextIndex(texts, id)
    ensures TextByKey(SetTextContent(texts, id, content, now), key) == content
  {
    var i := TextIndex(texts, id).value;
    var r := SetTextContent(texts, id, content, now);
    assert r[i].key == key;
    assert forall j :: 0 <= j < i ==> r[j].key != key;
  }

  /** On the seeded texts, ids '1', '2', '3' are the texts of the three keys. */
  lemma SeededUpdateThenRead(content: string, seeded: string, now: string)
    ensures TextByKey(SetTextContent(DefaultTexts(seeded), "1", content, now), "clinic_name") == content
    ensures TextByKey(SetTextContent(DefaultTexts(seeded), "2", content, now), "clinic_description") == content
    ensures TextByKey(SetTextContent(DefaultTexts(seeded), "3", content, now), "working_hours") == content
  {
    var d := DefaultTexts(seeded);
    assert d[0].id[0] == '1' && d[1].id[0] == '2' && d[2].id[0] == '3';
    assert d[0].key[7] == 'n' && d[1].key[7] == 'd' && d[2].key[0] == 'w';
    assert TextIndex(d, "1") == Some(0) == KeyIndex(d, "clinic_name");
    assert TextIndex(d, "2") == Some(1) == KeyIndex(d, "clinic_description");
    assert TextIndex(d, "3") == Some(2) == KeyIndex(d, "working_hours");
    UpdateThenRead(d, "1", "clinic_name", content, now);
    UpdateThenRead(d, "2", "clinic_description", content, now);
    UpdateThenRead(d, "3", "working_hours", content, now);
  }

  class ClinicStorage {
    var appointments: seq<Appointment>
    var chatMessages: seq<ChatMessage>
    var editableTexts: Option<seq<EditableText>>

    /** The module over a store holding the given collections. */
    constructor (appointments: seq<Appointment>, chatMessages: seq<ChatMessage>,
                 editableTexts: Option<seq<EditableText>>)
      ensures this.appointments == appointments && this.chatMessages == chatMessages
      ensures this.editableTexts == editableTexts
    {
      this.appointments := appointments;
      this.chatMessages := chatMessages;
      this.editableTexts := editableTexts;
    }

    function GetAppointments(): (r: seq<Appointment>)
      reads this
      ensures r == appointments
    {
      appointments
    }

    method SaveAppointment(appointment: Appointment)
      modifies this`appointments
      ensures appointments == old(appointments) + [appointment]
    {
      var apts := GetAppointments();
      apts := apts + [appointment];
      appointments := apts;
    }

    method DeleteAppointment(id: string)
      modifies this`appointments
      ensures appointments == WithoutId(old(appointments), id)
    {
      appointments := WithoutId(GetAppointments(), id);
    }

    function GetChatMessages(): (r: seq<ChatMessage>)
      reads this
      ensures r == chatMessages
    {
      chatMessages
    }

    method SaveChatMessage(message: ChatMessage)
      modifies this`chatMessages
      ensures chatMessages == old(chatMessages) + [message]
    {
      var ms := GetChatMessages();
      ms := ms + [message];
      chatMessages := ms;
    }

    /** The stored texts; when none are stored, the defaults, written first. */
    method GetEditableTexts(now: string) returns (texts: seq<EditableText>)
      modifies this`editableTexts
      ensures old(editableTexts).None? ==> texts == DefaultTexts(now)
      ensures old(editableTexts).Some? ==> texts == old(editableTexts).value
      ensures editableTexts == Some(texts)
    {
      if editableTexts.None? {
        texts := DefaultTexts(now);
        editableTexts := Some(texts);
        return;
      }
      texts := editableTexts.value;
    }

    /**
     * Give the first text with `id` new content; an unknown id writes
     * nothing (beyond the seeding of a missing collection).
     */
    method UpdateEditableText(id: string, content: string, now: string)
      modifies this`editableTexts
      ensures editableTexts == Some(SetTextContent(StoredOrDefault(old(editableTexts), now), id, content, now))
      ensures old(editableTexts).Some? && TextIndex(old(editableTexts).value, id).None? ==>
        editableTexts == old(editableTexts)
    {
      var texts := GetEditableTexts(now);
      var textIndex := TextIndex(texts, id);
      if textIndex.Some? {
        var i := textIndex.value;
        ghost var before := texts;
        texts := texts[i := texts[i].(content := content)];
        texts := texts[i := texts[i].(lastModified := now)];
        assert texts == before[i := before[i].(content := content, lastModified := now)];
        editableTexts := Some(texts);
      }
    }

    method GetEditableTextByKey(key: string, now: string) returns (content: string)
      modifies this`editableTexts
      ensures editableTexts == Some(StoredOrDefault(old(editableTexts), now))
      ensures content == TextByKey(editableTexts.value, key)
    {
      var texts := GetEditableTexts(now);
      content := TextByKey(texts, key);
    }
  }
}
