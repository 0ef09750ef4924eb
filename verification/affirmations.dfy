/** The affirmations page (src/pages/Affirmations.tsx): three tables of eight affirmations,
    one per language, a language switch that keeps the current position, and a "next"
    button that steps through the table cyclically. */
module Affirmations {

  /** The page's languages: English, Shona and Ndebele. */
  datatype Language = En | Sn | Nd

  /** The number of entries in each table. */
  const TableSize: nat := 8

  /** Entry `i` of `affirmationsData[language]`. */
  function Affirmation(language: Language, i: nat): string
    requires i < TableSize
  {
    match language
    case En =>
      if i == 0 then "You are stronger than you think, and you have the power to overcome any challenge."
      else if i == 1 then "Your feelings are valid, and it's okay to take time to heal."
      else if i == 2 then "Every small step forward is progress worth celebrating."
      else if i == 3 then "You deserve peace, happiness, and good mental health."
      else if i == 4 then "It's brave to ask for help when you need it."
      else if i == 5 then "You are not alone in your struggles - support is available."
      else if i == 6 then "Your mental health journey is unique and valid."
      else "Taking care of yourself is not selfish, it's necessary."
    case Sn =>
      if i == 0 then "Une simba kupfuura zvaunoona, uye une simba rekukunda dambudziko ripi zvaro."
      else if i == 1 then "Manzwiro ako ndeechokwadi, uye zvakanaka kutora nguva yekupora."
      else if i == 2 then "Nhanho imwe neimwe mberi igona, uye yakakodzera kupemberwa."
      else if i == 3 then "Unokodzera rugare, mufaro, nehutano hwepfungwa hwakanaka."
      else if i == 4 then "Ushingi kukumbira rubatsiro paunorwadzirwa."
      else if i == 5 then "Hausi wega mumatambudziko ako - rubatsiro ruripo."
      else if i == 6 then "Rwendo rwako rwehutano hwepfungwa rwakasarudzika uye rwechokwadi."
      else "Kuzvichengeta hausi kuva wakazvida, zvinodiwa."
    case Nd =>
      if i == 0 then "Ulamandla adlula lokho okucabangayo, njalo ulamandla okunqoba inselele ngayinye."
      else if i == 1 then "Imizwa yakho iliqiniso, njalo kulungile ukuthatha isikhathi ukuphola."
      else if i == 2 then "Zonke izinyathelo ezincane phambili ziyinqubomgodi okufanele ukugujwa."
      else if i == 3 then "Ufanele ukuthula, injabulo, lempilo yengqondo enhle."
      else if i == 4 then "Kuyisibindi ukucela usizo lapho udinga khona."
      else if i == 5 then "Kawuwedwa ezinkingeni zakho - usekelo lukhona."
      else if i == 6 then "Uhambo lwakho lwempilo yengqondo luyingqayizivele njalo liyiqiniso."
      else "Ukuzinakekela akusikho ukuziphatha ngokuzidla, kuyadingeka."
  }

  /** `affirmationsData[language]`: every table has the same size, so a position valid in
      one language is valid in all of them. */
  function Table(language: Language): (r: seq<string>)
    ensures |r| == TableSize
  {
    seq(TableSize, i requires 0 <= i < TableSize => Affirmation(language, i))
  }

  /** The index `handleNext` moves to: one further, wrapping from the last entry to the
      first. */
  function Next(i: nat): (r: nat)
    ensures r < TableSize
    ensures i + 1 < TableSize ==> r == i + 1
    ensures i + 1 == TableSize ==> r == 0
  {
    (i + 1) % TableSize
  }

  /** The index after pressing "next" `k` times. */
  function Advance(i: nat, k: nat): nat {
    if k == 0 then i else Next(Advance(i, k - 1))
  }

  /** Pressing "next" `k` times moves `k` places round the table. */
  lemma {:induction false} AdvanceIsRotation(i: nat, k: nat)
    requires i < TableSize
    ensures Advance(i, k) == (i + k) % TableSize
  {
    if k > 0 {
      AdvanceIsRotation(i, k - 1);
      var j := (i + k - 1) % TableSize;
      assert (i + k) % TableSize == (j + 1) % TableSize by {
        assert i + k - 1 == ((i + k - 1) / TableSize) * TableSize + j;
      }
    }
  }

  /** Going once round the table returns to the same affirmation. */
  lemma FullCycle(i: nat)
    requires i < TableSize
    ensures Advance(i, TableSize) == i
  {
    AdvanceIsRotation(i, TableSize);
  }

  /** The page's state: the chosen language and the position in its table. */
  class AffirmationsPage {
    var language: Language
    var currentIndex: nat

    /** The position is a valid index of every table. */
    predicate Valid()
      reads this
    {
      currentIndex < TableSize
    }

    /** The initial state: English, first affirmation. */
    constructor ()
      ensures language == En && currentIndex == 0 && Valid()
    {
      language := En;
      currentIndex := 0;
    }

    /** `affirmationsData[language][currentIndex]`, the affirmation on show. */
    function CurrentAffirmation(): (a: string)
      reads this
      requires Valid()
      ensures a in Table(language) && a == Affirmation(language, currentIndex)
    {
      Table(language)[currentIndex]
    }

    /** `handleNext`: `(prev + 1) % affirmations.length`. */
    method HandleNext()
      requires Valid()
      modifies this
      ensures Valid()
      ensures currentIndex == Next(old(currentIndex)) && language == old(language)
    {
      currentIndex := (currentIndex + 1) % |Table(language)|;
    }

    /** A language button: the language changes, the position does not, and it stays valid. */
    method SetLanguage(l: Language)
      requires Valid()
      modifies this
      ensures Valid()
      ensures language == l && currentIndex == old(currentIndex)
    {
      language := l;
    }
  }
}
