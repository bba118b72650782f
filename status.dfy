/** The unit status a handler publishes, and the messages built for it. */
module Status {

  /** The kinds of unit status; the handlers write only Maintenance and Active. */
  datatype Phase = Unknown | Maintenance | Active | Blocked | Waiting

  /** `MaintenanceStatus(message)`, `ActiveStatus(message)` and so on. */
  datatype UnitStatus = UnitStatus(phase: Phase, message: string)

  /** The two icons that appear in status messages (the others only prefix log lines). */
  const CheckMarkButton: string := "\U{2705}"
  const CrossMarkButton: string := "\U{274E}"

  /** `t` occurs in `s`. */
  predicate Contains(s: string, t: string) {
    exists i | 0 <= i <= |s| :: t <= s[i..]
  }

  lemma ContainsMiddle(a: string, b: string, c: string)
    ensures Contains(a + b + c, b)
  {
    assert b <= (a + b + c)[|a|..];
  }

  function DigitChar(d: nat): char
    requires d < 10
  {
    ('0' as int + d) as char
  }

  /** Python's `str(n)` for a non-negative integer: its decimal digits, most significant first. */
  function NatToString(n: nat): (s: string)
    ensures |s| >= 1
    decreases n
  {
    if n < 10 then [DigitChar(n)] else NatToString(n / 10) + [DigitChar(n % 10)]
  }

  function DigitValue(c: char): nat {
    if '0' <= c <= '9' then c as int - '0' as int else 0
  }

  /** Reads a string of decimal digits back as the number it denotes. */
  function ParseDecimal(s: string): nat
    decreases |s|
  {
    if s == [] then 0 else ParseDecimal(s[..|s| - 1]) * 10 + DigitValue(s[|s| - 1])
  }

  /** `str` loses nothing: the decimal text reads back as the number. */
  lemma {:induction false} ParseNatToString(n: nat)
    ensures ParseDecimal(NatToString(n)) == n
    decreases n
  {
    var s := NatToString(n);
    if n < 10 {
      assert s[..0] == [];
    } else {
      ParseNatToString(n / 10);
      assert s[..|s| - 1] == NatToString(n / 10);
    }
  }

  /** Different indices give different texts. */
  lemma NatToStringInjective(m: nat, n: nat)
    requires NatToString(m) == NatToString(n)
    ensures m == n
  {
    ParseNatToString(m);
    ParseNatToString(n);
  }

  /** The message of `_on_media_storage_attached` for a storage instance. */
  function AttachedMessage(name: string, index: nat, location: string): (m: string)
    ensures Contains(m, name + "/" + NatToString(index))
    ensures Contains(m, " at " + location + " bind mount.")
  {
    var head := CheckMarkButton + " " + "MEDIA: Attached ";
    var id := name + "/" + NatToString(index);
    var place := " at " + location + " bind mount.";
    var m := CheckMarkButton + " " + "MEDIA: Attached " + name + "/" + NatToString(index)
      + " at " + location + " bind mount.";
    assert m == head + id + place;
    ContainsMiddle(head, id, place);
    assert m == (head + id) + place + "";
    ContainsMiddle(head + id, place, "");
    m
  }

  /** The message of `_on_media_storage_detaching`. */
  const DetachedMessage: string := CrossMarkButton + " Detached MEDIA storage."

  /** Storage "media", index 0, mounted at "/mnt/media" is reported as "media/0" at "/mnt/media". */
  lemma MediaZeroAttached()
    ensures Contains(AttachedMessage("media", 0, "/mnt/media"), "media/0")
    ensures Contains(AttachedMessage("media", 0, "/mnt/media"), "/mnt/media")
  {
    var m := AttachedMessage("media", 0, "/mnt/media");
    assert NatToString(0) == "0";
    assert "media" + "/" + NatToString(0) == "media/0";
    var place := " at " + "/mnt/media" + " bind mount.";
    var k :| 0 <= k <= |m| && place <= m[k..];
    assert "/mnt/media" <= m[k + 4..];
  }
}
