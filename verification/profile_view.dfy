/** The profile view: the avatar's initials and colour, the texts shown for a
    missing name, e-mail, phone, birth date or id, and the tab the profile sheet
    shows. */
module ProfileView {
  import opened Wrappers
  import opened Text
  import opened KeyValue
  import opened ProfileModalState

  // ---------------------------------------------------------------------------
  // initials

  /** `words.map(w => w.charAt(0)).join('')`: an empty word contributes nothing. */
  function FirstChars(words: seq<string>): (r: string)
    ensures |r| <= |words|
  {
    if words == [] then ""
    else (if words[0] == "" then "" else [words[0][0]]) + FirstChars(words[1..])
  }

  /** `getInitials`: the first character of each space-separated word, upper-cased,
      at most two of them. */
  function GetInitials(fullName: string): (r: string)
    ensures |r| <= 2
    ensures forall i :: 0 <= i < |r| ==> !IsLowerAscii(r[i])
  {
    var all := Upper(FirstChars(Split(fullName, ' ')));
    if |all| <= 2 then all else all[..2]
  }

  /** A one-word name gives its first letter upper-cased; a name of two or more
      words gives the first letters of the first two. */
  lemma InitialsOfWords(first: string, second: string, rest: string)
    requires first != "" && second != ""
    requires ' ' !in first && ' ' !in second && ' ' !in rest
    ensures GetInitials(first) == [ToUpperChar(first[0])]
    ensures GetInitials(first + " " + second) == [ToUpperChar(first[0]), ToUpperChar(second[0])]
    ensures GetInitials(first + " " + second + " " + rest) == [ToUpperChar(first[0]), ToUpperChar(second[0])]
  {
    SplitNoSeparator(first, ' ');
    assert FirstChars([first]) == [first[0]];
    SplitAtFirst(first, ' ', second);
    SplitNoSeparator(second, ' ');
    assert first + " " + second == first + [' '] + second;
    assert FirstChars([second]) == [second[0]];
    assert [first] + [second] == [first, second];
    assert FirstChars([first, second]) == [first[0]] + FirstChars([second]);
    SplitThree(first, second, rest, ' ');
    assert first + " " + second + " " + rest == first + [' '] + second + [' '] + rest;
    assert [first, second, rest][1..] == [second, rest];
    assert FirstChars([first, second, rest]) == [first[0]] + FirstChars([second, rest]);
    assert FirstChars([second, rest]) == [second[0]] + FirstChars([rest]);
    assert |FirstChars([rest])| <= 1;
  }

  /** "ana maria silva" gives "AM" and "ana" gives "A". */
  lemma InitialsExamples()
    ensures GetInitials("ana maria silva") == "AM"
    ensures GetInitials("ana") == "A"
  {
    var ana, maria, silva := "ana", "maria", "silva";
    assert ' ' !in ana && ' ' !in maria && ' ' !in silva;
    InitialsOfWords(ana, maria, silva);
    assert ana + " " + maria + " " + silva == "ana maria silva";
  }

  // ---------------------------------------------------------------------------
  // avatar colour

  const Palette: seq<string> := [
    "#FF6B6B", "#4ECDC4", "#45B7D1", "#96CEB4",
    "#FFEAA7", "#DDA0DD", "#98D8C8", "#F7DC6F"
  ]

  /** The sum of the character codes. */
  function CodeSum(s: string): nat {
    if s == [] then 0 else s[0] as nat + CodeSum(s[1..])
  }

  lemma {:induction false} CodeSumAppend(a: string, b: string)
    ensures CodeSum(a + b) == CodeSum(a) + CodeSum(b)
  {
    if a != [] {
      assert (a + b)[1..] == a[1..] + b;
      CodeSumAppend(a[1..], b);
    } else {
      assert a + b == b;
    }
  }

  /** `getAvatarColor`: the palette entry at the code sum modulo eight. */
  function GetAvatarColor(name: string): (c: string)
    ensures c in Palette
    ensures c == Palette[CodeSum(name) % 8]
  {
    Palette[CodeSum(name) % |Palette|]
  }

  /** The colour depends on the characters and not on where they stand: swapping two
      parts of a name keeps it. */
  lemma AvatarColorOrderFree(a: string, b: string)
    ensures GetAvatarColor(a + b) == GetAvatarColor(b + a)
  {
    CodeSumAppend(a, b);
    CodeSumAppend(b, a);
    var x := CodeSum(a + b);
    assert CodeSum(b + a) == x;
  }

  // ---------------------------------------------------------------------------
  // what the view shows

  /** `user?.nome || fallback` */
  function NameOr(user: Option<UserData>, fallback: string): (r: string)
    ensures user.Some? && user.value.nome != "" ==> r == user.value.nome
    ensures !(user.Some? && user.value.nome != "") ==> r == fallback
  {
    if user.Some? && user.value.nome != "" then user.value.nome else fallback
  }

  /** `text || fallback` for an optional text. */
  function TextOr(t: Option<string>, fallback: string): (r: string)
    ensures t.Some? && t.value != "" ==> r == t.value
    ensures !(t.Some? && t.value != "") ==> r == fallback
  {
    if t.Some? && t.value != "" then t.value else fallback
  }

  /** The name the avatar is drawn from. */
  function AvatarName(user: Option<UserData>): (r: string)
    ensures r != ""
  {
    NameOr(user, "Usuário")
  }

  datatype InfoView = InfoView(name: string, email: string, telefone: string, dataNascimento: string, id: string)

  /** The information tab. */
  function InfoTab(user: Option<UserData>): (v: InfoView)
    ensures v.name != "" && v.email != "" && v.telefone != "" && v.dataNascimento != "" && v.id != ""
  {
    var email := if user.Some? then Some(user.value.email) else None;
    var telefone := if user.Some? then user.value.telefone else None;
    var dataNascimento := if user.Some? then user.value.dataNascimento else None;
    var id := if user.Some? then Some(user.value.id) else None;
    InfoView(NameOr(user, "Nome não informado"), TextOr(email, "Email não informado"),
             TextOr(telefone, "Não informado"), TextOr(dataNascimento, "Não informado"), TextOr(id, "N/A"))
  }

  /** With nobody logged in every line shows its fallback; a user's non-empty
      values are shown as stored. */
  lemma InfoFallbacks(user: Option<UserData>)
    ensures user.None? ==>
      InfoTab(user) == InfoView("Nome não informado", "Email não informado", "Não informado", "Não informado", "N/A")
      && AvatarName(user) == "Usuário"
    ensures user.Some? && user.value.nome != "" && user.value.email != "" ==>
      InfoTab(user).name == user.value.nome && InfoTab(user).email == user.value.email
      && AvatarName(user) == user.value.nome
    ensures user.Some? && user.value.telefone.Some? && user.value.telefone.value != "" ==>
      InfoTab(user).telefone == user.value.telefone.value
  {
  }

  /** The profile sheet's tab bar: it opens on the information tab and a press shows
      the pressed tab. */
  class ProfileTabs {
    var activeTab: Tab

    constructor ()
      ensures activeTab == ProfileModalState.Info
    {
      activeTab := ProfileModalState.Info;
    }

    method Press(tab: Tab)
      modifies this
      ensures activeTab == tab
    {
      activeTab := tab;
    }
  }
}
