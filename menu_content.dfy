/**
 * The side menu (src/components/SideMenu/MenuContent.tsx): each item's path is derived from its
 * text by lower-casing it and removing whitespace, and an item is highlighted when the browser
 * is on that path.
 */
module MenuContent {
  import Routes

  /** The characters JavaScript's `\s` matches. */
  predicate IsWhitespace(c: char)
  {
    c == ' ' || c == '\t' || c == '\n' || c == '\r' || c == '\U{000B}' || c == '\U{000C}' ||
    c == '\U{00A0}' || c == '\U{1680}' || ('\U{2000}' <= c <= '\U{200A}') ||
    c == '\U{2028}' || c == '\U{2029}' || c == '\U{202F}' || c == '\U{205F}' ||
    c == '\U{3000}' || c == '\U{FEFF}'
  }

  predicate IsUpperAscii(c: char)
  {
    'A' <= c <= 'Z'
  }

  predicate IsLowerAscii(c: char)
  {
    'a' <= c <= 'z'
  }

  function ToLowerAscii(c: char): char
  {
    if IsUpperAscii(c) then (c as int + 32) as char else c
  }

  /** `text.toLowerCase()`, on the ASCII letters: each character mapped on its own. */
  function ToLower(text: string): (lower: string)
    ensures |lower| == |text|
    ensures forall i :: 0 <= i < |lower| ==> !IsUpperAscii(lower[i])
    ensures forall i :: 0 <= i < |text| && !IsUpperAscii(text[i]) ==> lower[i] == text[i]
    ensures forall i :: 0 <= i < |text| && IsUpperAscii(text[i]) ==> lower[i] as int == text[i] as int + 32
  {
    seq(|text|, i requires 0 <= i < |text| => ToLowerAscii(text[i]))
  }

  function CountWhitespace(text: string): (n: nat)
    ensures n <= |text|
  {
    if text == [] then 0 else (if IsWhitespace(text[0]) then 1 else 0) + CountWhitespace(text[1..])
  }

  /** `.replace(/\s+/g, "")`: every run of whitespace removed. */
  function RemoveWhitespace(text: string): string
  {
    if text == [] then []
    else
      var rest := RemoveWhitespace(text[..|text| - 1]);
      if IsWhitespace(text[|text| - 1]) then rest else rest + [text[|text| - 1]]
  }

  /** Counting whitespace from the back. */
  lemma {:induction false} CountWhitespaceLast(text: string)
    requires text != []
    ensures CountWhitespace(text) ==
            CountWhitespace(text[..|text| - 1]) + (if IsWhitespace(text[|text| - 1]) then 1 else 0)
  {
    if |text| > 1 {
      CountWhitespaceLast(text[1..]);
      assert text[1..][..|text[1..]| - 1] == text[..|text| - 1][1..];
    }
  }

  /** Removing whitespace drops exactly the whitespace characters and keeps no upper-case letter
      that was not there. */
  lemma {:induction false} RemoveWhitespaceSpec(text: string)
    ensures |RemoveWhitespace(text)| == |text| - CountWhitespace(text)
    ensures forall i :: 0 <= i < |RemoveWhitespace(text)| ==> !IsWhitespace(RemoveWhitespace(text)[i])
    ensures (forall i :: 0 <= i < |text| ==> !IsUpperAscii(text[i])) ==>
              forall i :: 0 <= i < |RemoveWhitespace(text)| ==> !IsUpperAscii(RemoveWhitespace(text)[i])
  {
    if text != [] {
      RemoveWhitespaceSpec(text[..|text| - 1]);
      CountWhitespaceLast(text);
    }
  }

  /** Removing whitespace leaves a text without any unchanged. */
  lemma {:induction false} RemoveWhitespaceOfClean(text: string)
    requires forall i :: 0 <= i < |text| ==> !IsWhitespace(text[i])
    ensures RemoveWhitespace(text) == text
  {
    if text != [] {
      RemoveWhitespaceOfClean(text[..|text| - 1]);
      assert text == text[..|text| - 1] + [text[|text| - 1]];
    }
  }

  /** Removing whitespace distributes over concatenation. */
  lemma {:induction false} RemoveWhitespaceAppend(a: string, b: string)
    ensures RemoveWhitespace(a + b) == RemoveWhitespace(a) + RemoveWhitespace(b)
  {
    if b == [] {
      assert a + b == a;
    } else {
      assert (a + b)[..|a + b| - 1] == a + b[..|b| - 1];
      RemoveWhitespaceAppend(a, b[..|b| - 1]);
    }
  }

  /** Lower-casing neither creates nor removes whitespace. */
  lemma {:induction false} ToLowerKeepsWhitespaceCount(text: string)
    ensures CountWhitespace(ToLower(text)) == CountWhitespace(text)
  {
    if text != [] {
      assert ToLower(text)[1..] == ToLower(text[1..]);
      ToLowerKeepsWhitespaceCount(text[1..]);
    }
  }

  /** `toPath`: "/" followed by the lower-cased text without whitespace. */
  function ToPath(text: string): (path: string)
    ensures |path| >= 1 && path[0] == '/'
  {
    "/" + RemoveWhitespace(ToLower(text))
  }

  /** A path has one character for each non-whitespace character of the text, and after its
      leading "/" neither whitespace nor an upper-case ASCII letter. */
  lemma {:induction false} ToPathShape(text: string)
    ensures |ToPath(text)| == 1 + |text| - CountWhitespace(text)
    ensures forall i :: 1 <= i < |ToPath(text)| ==>
              !IsWhitespace(ToPath(text)[i]) && !IsUpperAscii(ToPath(text)[i])
  {
    ToLowerKeepsWhitespaceCount(text);
    var stripped := RemoveWhitespace(ToLower(text));
    RemoveWhitespaceSpec(ToLower(text));
    assert forall i :: 1 <= i < |ToPath(text)| ==> ToPath(text)[i] == stripped[i - 1];
  }

  /** Whitespace removal leaves a word of lower-case letters as it is. */
  lemma {:induction false} RemoveWhitespaceOfWord(word: string)
    requires forall i :: 0 <= i < |word| ==> IsLowerAscii(word[i])
    ensures RemoveWhitespace(word) == word
  {
    RemoveWhitespaceOfClean(word);
  }

  /** Whitespace removal on two lower-case words around a space joins them. */
  lemma {:induction false} RemoveWhitespaceOfTwoWords(first: string, second: string)
    requires forall i :: 0 <= i < |first| ==> IsLowerAscii(first[i])
    requires forall i :: 0 <= i < |second| ==> IsLowerAscii(second[i])
    ensures RemoveWhitespace(first + " " + second) == first + second
  {
    RemoveWhitespaceAppend(first + " ", second);
    RemoveWhitespaceAppend(first, " ");
    assert RemoveWhitespace(" ") == [];
    RemoveWhitespaceOfWord(first);
    RemoveWhitespaceOfWord(second);
  }

  lemma ToPathDashboard()
    ensures ToPath("Dashboard") == "/dashboard"
  {
    assert ToLower("Dashboard") == "dashboard";
    RemoveWhitespaceOfWord("dashboard");
  }

  /** The helper's own example: "New Payment" becomes "/newpayment". */
  lemma ToPathNewPayment()
    ensures ToPath("New Payment") == "/newpayment"
  {
    assert ToLower("New Payment") == "new payment";
    assert "new payment" == "new" + " " + "payment";
    RemoveWhitespaceOfTwoWords("new", "payment");
  }

  lemma ToPathAddCard()
    ensures ToPath("Add Card") == "/addcard"
  {
    assert ToLower("Add Card") == "add card";
    assert "add card" == "add" + " " + "card";
    RemoveWhitespaceOfTwoWords("add", "card");
  }

  lemma ToPathSettings()
    ensures ToPath("Settings") == "/settings"
  {
    assert ToLower("Settings") == "settings";
    RemoveWhitespaceOfWord("settings");
  }

  lemma ToPathFeedback()
    ensures ToPath("Feedback") == "/feedback"
  {
    assert ToLower("Feedback") == "feedback";
    RemoveWhitespaceOfWord("feedback");
  }

  const MainListItems: seq<string> := ["Dashboard", "New Payment", "Add Card"]
  const SecondaryListItems: seq<string> := ["Settings", "Feedback"]

  /** The items of both lists, in the order the menu shows them. */
  const MenuItems: seq<string> := MainListItems + SecondaryListItems

  /** The `selected` flag of each item of a list. */
  function SelectedFlags(pathname: string, items: seq<string>): (flags: seq<bool>)
    ensures |flags| == |items|
    ensures forall i :: 0 <= i < |items| ==> (flags[i] <==> pathname == ToPath(items[i]))
  {
    if items == [] then [] else [pathname == ToPath(items[0])] + SelectedFlags(pathname, items[1..])
  }

  /** The menu's items are the route table's texts, in the same order, and each derives its
      route's path. */
  lemma MenuMatchesRouteTable()
    ensures |MenuItems| == |Routes.AllRoutes|
    ensures forall i :: 0 <= i < |MenuItems| ==> MenuItems[i] == Routes.AllRoutes[i].text
    ensures forall i :: 0 <= i < |MenuItems| ==> ToPath(MenuItems[i]) == Routes.AllRoutes[i].path
  {
    ToPathDashboard();
    ToPathNewPayment();
    ToPathAddCard();
    ToPathSettings();
    ToPathFeedback();
  }

  /** On any page at most one menu item is highlighted. */
  lemma AtMostOneItemSelected(pathname: string, i: nat, j: nat)
    requires i < j < |MenuItems|
    ensures !(SelectedFlags(pathname, MenuItems)[i] && SelectedFlags(pathname, MenuItems)[j])
  {
    MenuMatchesRouteTable();
    Routes.RouteTableShape();
  }
}
