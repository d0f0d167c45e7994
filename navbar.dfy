/** The top bar: the signed-in user's avatar (a colour derived from the
    name, and initials), the account menu with the admin-mode switch, and
    sign-out. */
module Navbar {
  import opened Base
  import opened Text
  import opened Entities
  import opened Api
  import opened Storage
  import UserReducer
  import Routes
  import opened AppStore

  const TwoPow31 := 0x8000_0000
  const TwoPow32 := 0x1_0000_0000

  /** ECMAScript ToInt32: the integer congruent to `x` modulo 2^32 in the
      signed 32-bit range. */
  function ToInt32(x: int): (r: int)
    ensures -TwoPow31 <= r < TwoPow31
    ensures (r - x) % TwoPow32 == 0
    ensures -TwoPow31 <= x < TwoPow31 ==> r == x
  {
    (x + TwoPow31) % TwoPow32 - TwoPow31
  }

  /** `2^k`. */
  function Pow2(k: nat): (p: nat)
    ensures p >= 1
  {
    if k == 0 then 1 else 2 * Pow2(k - 1)
  }

  /** One round of the name hash: `code + ((hash << 5) - hash)`, where the
      shift works on the 32-bit value and the subtraction does not. */
  function HashStep(hash: int, c: char): int {
    c as int + (ToInt32(ToInt32(hash) * Pow2(5)) - hash)
  }

  /** One step grows the hash's magnitude by at most 2^31 plus the
      character code; it can still move the value by about 2^32, from one
      sign to the other. */
  lemma HashStepGrowth(hash: int, c: char)
    ensures var m := (if hash < 0 then -hash else hash) + TwoPow31 + c as int;
      -m <= HashStep(hash, c) <= m
  {
  }

  /** The hash of a name, folded from its first character on. */
  function Hash(s: string): int
    decreases |s|
  {
    if s == [] then 0 else HashStep(Hash(s[..|s| - 1]), s[|s| - 1])
  }

  /** `(hash >> (8 * i)) & 0xff`: byte `i` of the hash's 32-bit value, the
      shift being arithmetic (flooring). */
  function Byte(hash: int, i: nat): (b: nat)
    ensures b < 256
  {
    (ToInt32(hash) / Pow2(8 * i)) % 256
  }

  predicate IsLowerHex(c: char) {
    '0' <= c <= '9' || 'a' <= c <= 'f'
  }

  function HexDigit(d: nat): (c: char)
    requires d < 16
    ensures IsLowerHex(c)
  {
    "0123456789abcdef"[d]
  }

  /** `n.toString(16)`: lower-case hexadecimal without leading zeros. */
  function NatToHex(n: nat): (r: string)
    ensures |r| >= 1
    ensures forall k :: 0 <= k < |r| ==> IsLowerHex(r[k])
  {
    if n < 16 then [HexDigit(n)] else NatToHex(n / 16) + [HexDigit(n % 16)]
  }

  /** `s.slice(-2)`. */
  function LastTwo(s: string): string {
    if |s| >= 2 then s[|s| - 2..] else s
  }

  /** `` `00${v.toString(16)}`.slice(-2) ``. */
  function HexByte(v: nat): string {
    LastTwo("00" + NatToHex(v))
  }

  /** A byte renders as exactly two lower-case hex digits, zero-padded. */
  lemma HexBytePadded(v: nat)
    requires v < 256
    ensures HexByte(v) == TwoHex(v)
  {
    if v < 16 {
      assert "00" + NatToHex(v) == ['0', '0', HexDigit(v)];
    } else {
      assert NatToHex(v / 16) == [HexDigit(v / 16)];
      assert "00" + NatToHex(v) == ['0', '0', HexDigit(v / 16), HexDigit(v % 16)];
    }
  }

  /** The colour after the first `k` bytes have been appended. */
  function ColorPrefix(hash: int, k: nat): string {
    if k == 0 then "#" else ColorPrefix(hash, k - 1) + HexByte(Byte(hash, k - 1))
  }

  /** The avatar colour of a name. */
  function ColorOf(s: string): string {
    ColorPrefix(Hash(s), 3)
  }

  /** Rendering two digits per byte. */
  function TwoHex(v: nat): (r: string)
    requires v < 256
    ensures |r| == 2 && IsLowerHex(r[0]) && IsLowerHex(r[1])
  {
    [HexDigit(v / 16), HexDigit(v % 16)]
  }

  /** A colour is `#` and six lower-case hex digits, two per byte of the
      hash, lowest byte first. */
  lemma ColorPrefixShape(h: int)
    ensures ColorPrefix(h, 3) == "#" + TwoHex(Byte(h, 0)) + TwoHex(Byte(h, 1)) + TwoHex(Byte(h, 2))
  {
    var b0, b1, b2 := Byte(h, 0), Byte(h, 1), Byte(h, 2);
    HexBytePadded(b0);
    HexBytePadded(b1);
    HexBytePadded(b2);
    assert ColorPrefix(h, 1) == "#" + TwoHex(b0);
    assert ColorPrefix(h, 2) == "#" + TwoHex(b0) + TwoHex(b1);
  }

  /** The empty name is black. */
  lemma EmptyNameIsBlack()
    ensures ColorOf("") == "#000000"
  {
    assert Byte(0, 0) == 0 && Byte(0, 1) == 0 && Byte(0, 2) == 0;
    ColorPrefixShape(0);
  }

  lemma HashPrefix(s: string, i: nat)
    requires i < |s|
    ensures Hash(s[..i + 1]) == HashStep(Hash(s[..i]), s[i])
  {
    assert s[..i + 1][..i] == s[..i];
  }

  /** `stringToColor(name)`. */
  method StringToColor(s: string) returns (color: string)
    ensures color == ColorOf(s)
    ensures color == "#" + TwoHex(Byte(Hash(s), 0)) + TwoHex(Byte(Hash(s), 1)) + TwoHex(Byte(Hash(s), 2))
  {
    var hash := 0;
    for i := 0 to |s|
      invariant hash == Hash(s[..i])
    {
      HashPrefix(s, i);
      hash := s[i] as int + (ToInt32(ToInt32(hash) * Pow2(5)) - hash);
    }
    assert s[..|s|] == s;
    color := "#";
    for i := 0 to 3
      invariant color == ColorPrefix(hash, i)
    {
      assert i * 8 == 8 * i;
      var value := (ToInt32(hash) / Pow2(i * 8)) % 256;
      assert value == Byte(hash, i);
      color := color + LastTwo("00" + NatToHex(value));
    }
    ColorPrefixShape(hash);
  }

  /** `` `${part[0]}` ``: the first character, or `undefined` for an empty
      part. */
  function FirstCharText(part: string): string {
    if part == "" then "undefined" else [part[0]]
  }

  /** The avatar's initials: the first characters of the first two
      space-separated parts of `` `${fName} ${lName}` ``, each one
      character or the text `undefined` for an empty part. */
  function Initials(fName: string, lName: string): (r: string)
    ensures 2 <= |r| <= 18
  {
    var parts := Split(fName + " " + lName, ' ');
    assert (fName + " " + lName)[|fName|] == ' ';
    FirstCharText(parts[0]) + FirstCharText(parts[1])
  }

  /** The first occurrence found is the one at `k` when none comes
      earlier. */
  lemma IndexOfAt(s: string, c: char, k: nat)
    requires k < |s| && s[k] == c && c !in s[..k]
    ensures c in s && IndexOf(s, c) == k
  {
  }

  /** For a first name without spaces and a last name not starting with
      one, the initials are the two names' first characters. */
  lemma InitialsOfPlainNames(fName: string, lName: string)
    requires fName != "" && lName != "" && ' ' !in fName && lName[0] != ' '
    ensures Initials(fName, lName) == [fName[0], lName[0]]
  {
    var name := fName + " " + lName;
    assert name[..|fName|] == fName;
    IndexOfAt(name, ' ', |fName|);
    assert name[|fName| + 1..] == lName;
    var parts := Split(name, ' ');
    assert parts[0] == fName;
    assert parts[1] == Split(lName, ' ')[0];
    if ' ' in lName {
      var j := IndexOf(lName, ' ');
      assert j > 0;
      assert Split(lName, ' ')[0] == lName[..j];
    }
  }

  /** An empty first name renders as `undefined` before the second
      initial. */
  lemma InitialsWithoutFirstName(lName: string)
    ensures Initials("", lName)[..9] == "undefined"
  {
    var name := "" + " " + lName;
    IndexOfAt(name, ' ', 0);
    assert Split(name, ' ')[0] == "";
  }

  /** `stringAvatar(fName, lName)`: the colour of the joined name and the
      initials. */
  method StringAvatar(fName: string, lName: string) returns (bgcolor: string, initials: string)
    ensures bgcolor == ColorOf(fName + " " + lName)
    ensures |bgcolor| == 7 && bgcolor[0] == '#'
    ensures initials == Initials(fName, lName)
  {
    var name := fName + " " + lName;
    bgcolor := StringToColor(name);
    initials := Initials(fName, lName);
  }

  /** One word capitalised: first character upper-cased, the rest
      lower-cased. */
  function Capitalize(w: string): (r: string)
    ensures |r| == |w|
  {
    if w == [] then [] else [Upper(w[0])] + LowerAll(w[1..])
  }

  function CapitalizeAll(ws: seq<string>): (r: seq<string>)
    ensures |r| == |ws|
  {
    seq(|ws|, i requires 0 <= i < |ws| => Capitalize(ws[i]))
  }

  /** `formatText(text)`: split on `_`, capitalise each word, join with
      spaces. */
  function FormatText(t: string): (r: string)
    ensures r == FormatSpec(t)
    ensures |r| == |t|
  {
    FormatTextMeaning(t);
    Join(CapitalizeAll(Split(t, '_')), ' ')
  }

  /** What the formatting does character by character: an underscore
      becomes a space, a character at the start or after an underscore is
      upper-cased, every other character lower-cased. */
  function FormatSpec(t: string): (r: string)
    ensures |r| == |t|
  {
    seq(|t|, i requires 0 <= i < |t| =>
      if t[i] == '_' then ' ' else if i == 0 || t[i - 1] == '_' then Upper(t[i]) else Lower(t[i]))
  }

  lemma CapitalizeWord(w: string)
    requires '_' !in w
    ensures Capitalize(w) == FormatSpec(w)
  {
  }

  lemma FormatSpecSplit(t: string, i: nat)
    requires i < |t| && t[i] == '_'
    ensures FormatSpec(t) == FormatSpec(t[..i]) + " " + FormatSpec(t[i + 1..])
  {
    var r := FormatSpec(t[..i]) + " " + FormatSpec(t[i + 1..]);
    forall k | 0 <= k < |t|
      ensures FormatSpec(t)[k] == r[k]
    {
      if k > i + 1 {
        assert t[k - 1] == t[i + 1..][k - i - 2];
      }
    }
  }

  lemma {:induction false} FormatTextMeaning(t: string)
    ensures Join(CapitalizeAll(Split(t, '_')), ' ') == FormatSpec(t)
    decreases |t|
  {
    if '_' in t {
      var i := IndexOf(t, '_');
      var w, rest := t[..i], t[i + 1..];
      var tail := Split(rest, '_');
      assert Split(t, '_') == [w] + tail;
      assert CapitalizeAll([w] + tail) == [Capitalize(w)] + CapitalizeAll(tail);
      assert Join(CapitalizeAll(Split(t, '_')), ' ')
        == Capitalize(w) + " " + Join(CapitalizeAll(Split(rest, '_')), ' ');
      FormatTextMeaning(rest);
      CapitalizeWord(w);
      FormatSpecSplit(t, i);
    } else {
      CapitalizeWord(t);
    }
  }

  /** The word `ADMIN` formats as `Admin`. The literal arrives as a
      parameter so that callers do not unfold it themselves. */
  lemma AdminWord(w: string)
    requires w == "ADMIN"
    ensures FormatSpec(w) == "Admin"
  {
    forall k | 0 <= k < 5
      ensures FormatSpec(w)[k] == "Admin"[k]
    {
    }
  }

  /** The word `SUPER` formats as `Super`; the literal is a parameter for
      the same reason. */
  lemma SuperWord(w: string)
    requires w == "SUPER"
    ensures FormatSpec(w) == "Super"
  {
    forall k | 0 <= k < 5
      ensures FormatSpec(w)[k] == "Super"[k]
    {
    }
  }

  /** The role labels of the account menu. */
  lemma AdminLabel(role: string)
    requires role == RoleAdmin
    ensures FormatText(role) == "Admin"
  {
    FormatTextMeaning(role);
    AdminWord(role);
  }

  lemma SuperAdminLabel(role: string)
    requires role == RoleSuperAdmin
    ensures FormatText(role) == "Super Admin"
  {
    SuperAdminParts(role);
    FormatTextMeaning(role);
    FormatSpecSplit(role, 5);
    SuperWord(role[..5]);
    AdminWord(role[6..]);
    LabelWords("Super", "Admin");
  }

  /** `SUPER_ADMIN` is two words around one underscore. */
  lemma SuperAdminParts(role: string)
    requires role == RoleSuperAdmin
    ensures |role| == 11 && role[5] == '_' && role[..5] == "SUPER" && role[6..] == "ADMIN"
  {
  }

  /** The two formatted words joined by the space `join` puts between
      them. */
  lemma LabelWords(a: string, b: string)
    requires a == "Super" && b == "Admin"
    ensures a + " " + b == "Super Admin"
  {
  }

  /** The admin-mode switch is offered to admins and super admins only. */
  predicate ShowAdminSwitch(user: Option<User>)
    ensures ShowAdminSwitch(user) ==> user.Some? && user.value.role != RoleUser
    ensures ShowAdminSwitch(user) <==> user.Some? && (user.value.role == RoleAdmin || user.value.role == RoleSuperAdmin)
  {
    IsAdmin(user)
  }

  /** The switch's label: the formatted role followed by ` Mode`. */
  function AdminSwitchLabel(role: string): (caption: string)
    ensures caption == FormatSpec(role) + " Mode"
    ensures |caption| == |role| + 5
  {
    FormatText(role) + " Mode"
  }

  /** The two roles that see the switch read "Admin Mode" and
      "Super Admin Mode". */
  lemma AdminSwitchLaws(user: Option<User>)
    ensures HasRole(user, RoleAdmin) ==> ShowAdminSwitch(user) && AdminSwitchLabel(user.value.role) == "Admin Mode"
    ensures HasRole(user, RoleSuperAdmin) ==>
      ShowAdminSwitch(user) && AdminSwitchLabel(user.value.role) == "Super Admin Mode"
  {
    if HasRole(user, RoleAdmin) {
      AdminLabel(user.value.role);
      ModeWords("Admin", "Admin Mode");
    }
    if HasRole(user, RoleSuperAdmin) {
      SuperAdminLabel(user.value.role);
      ModeWords("Super Admin", "Super Admin Mode");
    }
  }

  /** A label and the word after it; the literals are parameters so that
      callers do not unfold them. */
  lemma ModeWords(a: string, b: string)
    requires (a == "Admin" && b == "Admin Mode") || (a == "Super Admin" && b == "Super Admin Mode")
    ensures a + " Mode" == b
  {
  }

  class Navbar {
    /** The account menu's anchor is set. */
    var menuOpen: bool

    constructor ()
      ensures !menuOpen
    {
      menuOpen := false;
    }

    method HandleClick()
      modifies this
      ensures menuOpen
    {
      menuOpen := true;
    }

    method HandleClose()
      modifies this
      ensures !menuOpen
    {
      menuOpen := false;
    }

    /** The admin-mode switch: nothing is sent for a visitor or a plain
        user; otherwise the new mode is sent and the returned user replaces
        the store's. A refusal changes nothing. */
    method ChangeAdminMode(store: Store, value: bool, reply: Reply<User>) returns (sent: Option<Json>)
      modifies store`user
      ensures sent.Some? <==> old(store.user.user).Some? && old(store.user.user).value.role != RoleUser
      ensures sent.Some? ==> sent.value == map["adminMode" := BoolV(value)]
      ensures sent.Some? && reply.Ok? ==> store.user.user == Some(reply.value)
      ensures !(sent.Some? && reply.Ok?) ==> store.user == old(store.user)
    {
      sent := None;
      var user := store.user.user;
      if user.None? || user.value.role == RoleUser {
        return;
      }
      sent := Some(map["adminMode" := BoolV(value)]);
      if reply.Ok? {
        store.DispatchUser(UserReducer.SetUserData(Some(reply.value)));
      }
    }

    /** Sign-out: forget the token, clear the user, close the menu and go
        to the sign-in path. */
    method HandleLogout(storage: LocalStorage, store: Store) returns (navigateTo: string)
      modifies this, storage, store`user
      ensures storage.data == old(storage.data) - {TokenKey}
      ensures store.user.user.None? && store.user == UserReducer.InitialState
      ensures !menuOpen
      ensures navigateTo == Routes.SignInPath
    {
      storage.DeleteData(TokenKey);
      store.DispatchUser(UserReducer.SetUserData(None));
      menuOpen := false;
      navigateTo := Routes.SignInPath;
    }
  }
}
