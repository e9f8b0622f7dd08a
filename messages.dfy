/** The per-finger-count message table and the two fixed text shapes. */
module Messages {
  import opened Common

  /** The text lines and font size a message is drawn with (its status label is UI only). */
  datatype Message = Message(text: seq<string>, fontSize: nat)

  /** FINGER_MESSAGES: one entry for each count 1 .. 10. */
  function FingerMessage(k: int): (m: Option<Message>)
    ensures m.Some? <==> 1 <= k <= 10
    ensures m.Some? ==> |m.value.text| > 0 && m.value.fontSize > 0
  {
    if k == 1 then Some(Message(["HAII", "SAYANGGG"], 180))
    else if k == 2 then Some(Message(["AKU MAU", "KASIH TAHU", "SESUATU..."], 140))
    else if k == 3 then Some(Message(["AKU BANGGA", "BANGET SAMA", "KAMU SAYANG"], 130))
    else if k == 4 then Some(Message(["KAMU BAIK,", "CANTIK, HEBAT,", "BERANI MENCOBA", "HAL-HAL BARU"], 100))
    else if k == 5 then Some(Message(["BEDA SAMA AKU", "YANG TAKUT", "NGELAKUIN", "SESUATU"], 110))
    else if k == 6 then Some(Message(["AKU TAKUT GAGAL", "TAPI KAMU", "SELALU BERANI", "DAN KAMU HEBAT"], 100))
    else if k == 7 then Some(Message(["BERUNTUNG", "BANGET AKU", "PUNYA KAMU"], 130))
    else if k == 8 then Some(Message(["THANKS GOD", "FOR GIVE ME", "NAJMITA"], 130))
    else if k == 9 then Some(Message(["DAN YANG", "TERAKHIR AKU", "MAU NGOMONG..."], 120))
    else if k == 10 then Some(Message(["I LOVE YOUUU", "MOREEEE", "TUAN PUTRI", "NAJMITAAA \U{2764}\U{FE0F}"], 110))
    else None
  }

  /** The text of the double_love shape. */
  const SPECIAL_LOVE: Message := Message(["FOR YOU", "BEAUTIFUL WOMAN", "NAJMITA ZAHIRA"], 130)

  /** The text of the shape shown when the photo is missing. */
  const MISSING: Message := Message(["MASUKKAN FILE", "us.jpeg", "KE FOLDER"], 100)
}
