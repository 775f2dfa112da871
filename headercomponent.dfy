/** The site header: the tables that turn a menu, site, platform, market
    or channel name into the CSS locator to act on, and the hamburger menu
    whose open state the component checks before each toggle. The page
    itself is outside the model: a click, hover or key press is recorded
    in an action log, and the menu panel's visibility is a field that the
    toggle clicks change. */
module Header {
  import opened Wrappers
  import opened JavaStrings

  // ------------------------------------------------------------------
  // Locators (HeaderComponent.java, lines 24-138)
  // ------------------------------------------------------------------

  const SabahSporLink := "a[href='/spor-haberleri']"
  const GunaydinLink := "a[href='/magazin-haberleri']"
  const FinansLink := "a[href='/finans']"
  const RozaLink := "a[href='/roza']"
  const MemurlarLink := "a[href='/memurlar']"
  const KobiLink := "a[href='/kobi']"
  const VideoLink := "a[href='/video']"

  const FacebookIcon := "a.face[href*='facebook.com']"
  const TwitterIcon := "a.twt[href*='x.com']"
  const InstagramIcon := "a.inst[href*='instagram.com']"
  const YoutubeIcon := "a.ytb[href*='youtube.com']"

  const AnaSayfaLink := "a[href='https://www.sabah.com.tr']"
  const SonDakikaLink := "a[href='/son-dakika-haberleri']"
  const GundemLink := "a[href='/gundem']"
  const EkonomiLink := "a[href='/ekonomi']"
  const YasamLink := "a[href='/yasam']"
  const EgitimLink := "a[href='/egitim']"
  const DunyaLink := "a[href='/dunya']"
  const ResmiIlanlarLink := "a[href='/resmi-ilan']"
  const YazarlarLink := "a[href='/yazarlar']"

  const BistVeri := ".bist-data, div:has-text('Bist') + span"
  const DolarVeri := ".usd-data, div:has-text('Dolar') + span"
  const EuroVeri := ".eur-data, div:has-text('Euro') + span"
  const AltinVeri := ".gold-data, div:has-text('Altın') + span"
  const BitcoinVeri := ".btc-data, div:has-text('Bitcoin') + span"

  const HamburgerMenuIcon := "button.show-navobile"
  const CloseMenuIcon := ".close-menu, .menu-close, button[aria-label*='Kapat']"
  const HamburgerMenuPanel := "nav.menu"
  const MenuOverlay := ".menu-overlay, .backdrop"

  const MenuItemHaber := "li.desktop-none a[href='/']"
  const MenuItemSpor := "li.desktop-none a[href='/spor-haberleri']"
  const MenuItemEkonomi := "li.desktop-none a[href='/ekonomi']"
  const MenuItemResmiIlanlar := "li.desktop-none a[href='/resmi-ilan']"
  const MenuItemFinans := "li.desktop-none a[href='/finans']"
  const MenuItemApara := "li.desktop-none a[href='/apara']"
  const MenuItemTarim := "li.desktop-none a[href='/tarim']"
  const MenuItemEglence := "li.desktop-none .subOpen:has-text('Eğlence')"
  const MenuItemDiger := "li.desktop-none .subOpen:has-text('Diğer')"
  const MenuItemGaleri := "li.desktop-none .subOpen:has-text('Galeri')"
  const MenuItemSabahTv := "li.desktop-none .subOpen:has-text('Sabah TV')"
  const MenuItemVideoGaleri := "li.desktop-none .subOpen:has-text('Video Galeri')"
  const MenuItemEkler := "li.desktop-none .subOpen:has-text('Ekler')"
  const MenuItemSansOyunlari := "li.desktop-none .subOpen:has-text('Şans Oyunları')"
  const MenuItemYazarlar := "li.desktop-none a[href='/yazarlar']"

  const SubMenuContainer := ".subMenu"
  const EglenceSubMenu := SubMenuContainer + " ul li a[href='/oyun'], " + SubMenuContainer + " ul li a[href='/bilmeceler'], " + SubMenuContainer + " ul li a[href='/bulmaca-coz']"
  const DigerSubMenu := SubMenuContainer + " ul li a[href='/teknokulis'], " + SubMenuContainer + " ul li a[href='/kultur-sanat'], " + SubMenuContainer + " ul li a[href='/medya']"
  const GaleriSubMenu := SubMenuContainer + " ul li a[href*='/galeri/']"
  const SabahTvSubMenu := SubMenuContainer + " ul li a[href*='/video/']"
  const VideoGaleriSubMenu := SubMenuContainer + " ul li a[href*='/video-galeri/']"
  const EklerSubMenu := SubMenuContainer + " ul li a[href='/cumartesi'], " + SubMenuContainer + " ul li a[href='/pazar']"
  const SansOyunlariSubMenu := SubMenuContainer + " ul li a[href*='-sonuclari']"

  const ZiraatKupasiCanliLink := "a:has-text('Ziraat Türkiye Kupası')"
  const AhaberCanliLink := "a[href='/video/canli-yayin/ahaber']"
  const AparaCanliLink := "a[href='/apara/canli-yayin']"
  const AsporCanliLink := "a[href='/video/canli-yayin/aspor']"
  const AtvCanliLink := "a[href='/video/canli-yayin/atv']"
  const A2CanliLink := "a[href='/video/canli-yayin/a2tv']"
  const VavTvCanliLink := "a[href='/video/canli-yayin/vavtv']"

  // ------------------------------------------------------------------
  // Main menu: a closed table over the upper-cased name
  // ------------------------------------------------------------------

  /** The labels the main-menu switch accepts, in both spellings. */
  const MainMenuNames: set<string> := {
    "ANA SAYFA", "SON DAK\U{0130}KA", "SON DAKIKA", "GÜNDEM", "GUNDEM",
    "EKONOM\U{0130}", "EKONOMI", "YAŞAM", "YASAM", "EĞ\U{0130}T\U{0130}M", "EGITIM",
    "DÜNYA", "DUNYA", "RESM\U{0130} \U{0130}LANLAR", "RESMI ILANLAR", "YAZARLAR" }

  /** The main-menu links. */
  const MainMenuLinks: set<string> := {
    AnaSayfaLink, SonDakikaLink, GundemLink, EkonomiLink, YasamLink,
    EgitimLink, DunyaLink, ResmiIlanlarLink, YazarlarLink }

  /** The main-menu switch on an upper-cased name. */
  function MainMenuLink(key: string): (r: Option<string>)
    ensures r.Some? <==> key in MainMenuNames
    ensures r.Some? ==> r.value in MainMenuLinks
  {
    if key == "ANA SAYFA" then Some(AnaSayfaLink)
    else if key == "SON DAK\U{0130}KA" || key == "SON DAKIKA" then Some(SonDakikaLink)
    else if key == "GÜNDEM" || key == "GUNDEM" then Some(GundemLink)
    else if key == "EKONOM\U{0130}" || key == "EKONOMI" then Some(EkonomiLink)
    else if key == "YAŞAM" || key == "YASAM" then Some(YasamLink)
    else if key == "EĞ\U{0130}T\U{0130}M" || key == "EGITIM" then Some(EgitimLink)
    else if key == "DÜNYA" || key == "DUNYA" then Some(DunyaLink)
    else if key == "RESM\U{0130} \U{0130}LANLAR" || key == "RESMI ILANLAR" then Some(ResmiIlanlarLink)
    else if key == "YAZARLAR" then Some(YazarlarLink)
    else None
  }

  /** getMainMenuLocator: the link for a main-menu name, looked up by its
      upper case; any other name is an IllegalArgumentException. */
  function MainMenuLocator(menuItem: string): (r: Result<string>)
    ensures r.Success? <==> ToUpperCase(menuItem) in MainMenuNames
    ensures r.Success? ==> r.value in MainMenuLinks
    ensures r.Failure? ==> r.error == "Geçersiz menü öğesi: " + menuItem
  {
    match MainMenuLink(ToUpperCase(menuItem))
    case Some(link) => Success(link)
    case None => Failure("Geçersiz menü öğesi: " + menuItem)
  }

  /** A name and its upper case resolve alike: the switch sees the same key. */
  lemma MainMenuCaseInsensitive(menuItem: string)
    ensures MainMenuLocator(ToUpperCase(menuItem)).Success? == MainMenuLocator(menuItem).Success?
    ensures MainMenuLocator(menuItem).Success? ==>
              MainMenuLocator(ToUpperCase(menuItem)) == MainMenuLocator(menuItem)
  {
    ToUpperCaseIdempotent(menuItem);
  }

  /** The Turkish and the ASCII spelling of each item lead to the same
      link. */
  lemma MainMenuSpellingsAgree()
    ensures MainMenuLink("SON DAK\U{0130}KA") == MainMenuLink("SON DAKIKA") == Some(SonDakikaLink)
    ensures MainMenuLink("GÜNDEM") == MainMenuLink("GUNDEM") == Some(GundemLink)
    ensures MainMenuLink("EKONOM\U{0130}") == MainMenuLink("EKONOMI") == Some(EkonomiLink)
    ensures MainMenuLink("YAŞAM") == MainMenuLink("YASAM") == Some(YasamLink)
  {
  }

  /** The same for the remaining items with two spellings. */
  lemma MainMenuSpellingsAgreeToo()
    ensures MainMenuLink("EĞ\U{0130}T\U{0130}M") == MainMenuLink("EGITIM") == Some(EgitimLink)
    ensures MainMenuLink("DÜNYA") == MainMenuLink("DUNYA") == Some(DunyaLink)
    ensures MainMenuLink("RESM\U{0130} \U{0130}LANLAR") == MainMenuLink("RESMI ILANLAR") == Some(ResmiIlanlarLink)
  {
  }

  lemma UpperCaseOfGundem()
    ensures ToUpperCase("Gündem") == "GÜNDEM"
  {
    ToUpperCaseCharwise("Gündem");
  }

  lemma UpperCaseOfGundemAscii()
    ensures ToUpperCase("gundem") == "GUNDEM"
  {
    ToUpperCaseCharwise("gundem");
  }

  /** A caller may write an item in any case: "Gündem" and "gundem" both
      reach the Gündem link. */
  lemma GundemInAnyCase()
    ensures MainMenuLocator("Gündem") == MainMenuLocator("gundem") == Success(GundemLink)
  {
    UpperCaseOfGundem();
    UpperCaseOfGundemAscii();
    MainMenuSpellingsAgree();
  }

  lemma UpperCaseOfEgitim()
    ensures ToUpperCase("Eğitim") == "EĞITIM"
  {
    ToUpperCaseCharwise("Eğitim");
  }

  /** A lower-case dotted i upper-cases to a plain I, so "Eğitim" becomes
      "EĞITIM", which mixes the two spellings and matches neither: the
      name is rejected. */
  lemma EgitimIsRejected()
    ensures MainMenuLocator("Eğitim") == Failure("Geçersiz menü öğesi: Eğitim")
  {
    UpperCaseOfEgitim();
    assert MainMenuLink("EĞITIM") == None;
  }

  // ------------------------------------------------------------------
  // Hamburger menu items and their sub-menus: open tables with fallbacks
  // ------------------------------------------------------------------

  /** The categories the hamburger switch knows, lower-cased. */
  const HamburgerNames: set<string> := {
    "haber", "spor", "ekonomi", "resmi ilanlar", "resmi i\U{0307}lanlar", "finans",
    "apara", "tarım", "tarim", "eğlence", "eglence", "diğer", "diger", "galeri",
    "sabah tv", "sabahtv", "video galeri", "videogaleri", "ekler",
    "şans oyunları", "sans oyunlari", "yazarlar" }

  /** The hamburger menu's item locators. */
  const HamburgerItems: set<string> := {
    MenuItemHaber, MenuItemSpor, MenuItemEkonomi, MenuItemResmiIlanlar, MenuItemFinans,
    MenuItemApara, MenuItemTarim, MenuItemEglence, MenuItemDiger, MenuItemGaleri,
    MenuItemSabahTv, MenuItemVideoGaleri, MenuItemEkler, MenuItemSansOyunlari, MenuItemYazarlar }

  /** The hamburger switch on a lower-cased category. */
  function HamburgerItem(key: string): (r: Option<string>)
    ensures r.Some? <==> key in HamburgerNames
    ensures r.Some? ==> r.value in HamburgerItems
  {
    if key == "haber" then Some(MenuItemHaber)
    else if key == "spor" then Some(MenuItemSpor)
    else if key == "ekonomi" then Some(MenuItemEkonomi)
    else if key == "resmi ilanlar" || key == "resmi i\U{0307}lanlar" then Some(MenuItemResmiIlanlar)
    else if key == "finans" then Some(MenuItemFinans)
    else if key == "apara" then Some(MenuItemApara)
    else if key == "tarım" || key == "tarim" then Some(MenuItemTarim)
    else if key == "eğlence" || key == "eglence" then Some(MenuItemEglence)
    else if key == "diğer" || key == "diger" then Some(MenuItemDiger)
    else if key == "galeri" then Some(MenuItemGaleri)
    else if key == "sabah tv" || key == "sabahtv" then Some(MenuItemSabahTv)
    else if key == "video galeri" || key == "videogaleri" then Some(MenuItemVideoGaleri)
    else if key == "ekler" then Some(MenuItemEkler)
    else if key == "şans oyunları" || key == "sans oyunlari" then Some(MenuItemSansOyunlari)
    else if key == "yazarlar" then Some(MenuItemYazarlar)
    else None
  }

  /** The locator that finds a menu entry by its visible text. */
  function TextLocator(kategori: string): string {
    HamburgerMenuPanel + " a:has-text('" + kategori + "')"
  }

  /** getHamburgerMenuItemLocator: the item locator for a known category
      (looked up by its lower case); any other category is found by its
      text inside the menu panel, so the lookup never fails. */
  function HamburgerMenuItemLocator(kategori: string): (r: string)
    ensures ToLowerCase(kategori) !in HamburgerNames ==> r == TextLocator(kategori)
    ensures ToLowerCase(kategori) in HamburgerNames ==> r in HamburgerItems
  {
    match HamburgerItem(ToLowerCase(kategori))
    case Some(item) => item
    case None => TextLocator(kategori)
  }

  /** Both spellings of a category lead to the same item. */
  lemma HamburgerSpellingsAgree()
    ensures HamburgerItem("resmi i\U{0307}lanlar") == HamburgerItem("resmi ilanlar") == Some(MenuItemResmiIlanlar)
    ensures HamburgerItem("tarım") == HamburgerItem("tarim") == Some(MenuItemTarim)
    ensures HamburgerItem("eğlence") == HamburgerItem("eglence") == Some(MenuItemEglence)
  {
  }

  /** The same for two more categories. */
  lemma HamburgerSpellingsAgreeToo()
    ensures HamburgerItem("diğer") == HamburgerItem("diger") == Some(MenuItemDiger)
    ensures HamburgerItem("sabah tv") == HamburgerItem("sabahtv") == Some(MenuItemSabahTv)
  {
  }

  /** And for the last two. */
  lemma HamburgerSpellingsAgreeAsWell()
    ensures HamburgerItem("video galeri") == HamburgerItem("videogaleri") == Some(MenuItemVideoGaleri)
    ensures HamburgerItem("şans oyunları") == HamburgerItem("sans oyunlari") == Some(MenuItemSansOyunlari)
  {
  }

  /** A dotted capital İ lower-cases to "i" followed by a combining dot
      wherever it stands, which is why the table lists "resmi i\u0307lanlar". */
  lemma LowerCaseOfDottedCapitalI(a: string, b: string)
    ensures ToLowerCase(a + "\U{0130}" + b) == ToLowerCase(a) + "i\U{0307}" + ToLowerCase(b)
  {
    ToLowerCaseAppend(a + "\U{0130}", b);
    ToLowerCaseAppend(a, "\U{0130}");
    assert ToLowerCase("\U{0130}") == "i\U{0307}";
  }

  /** A category and its lower case reach the same item when the table
      knows it. */
  lemma HamburgerCaseInsensitive(kategori: string)
    requires ToLowerCase(kategori) in HamburgerNames
    ensures HamburgerMenuItemLocator(ToLowerCase(kategori)) == HamburgerMenuItemLocator(kategori)
  {
    ToLowerCaseIdempotent(kategori);
  }

  /** The categories with a sub-menu, lower-cased. */
  const SubMenuNames: set<string> := {
    "eğlence", "eglence", "diğer", "diger", "galeri", "sabah tv", "sabahtv",
    "video galeri", "videogaleri", "ekler", "şans oyunları", "sans oyunlari" }

  /** The sub-menu locators, the generic container among them. */
  const SubMenus: set<string> := {
    EglenceSubMenu, DigerSubMenu, GaleriSubMenu, SabahTvSubMenu, VideoGaleriSubMenu,
    EklerSubMenu, SansOyunlariSubMenu, SubMenuContainer }

  /** Every sub-menu locator starts inside the sub-menu container. */
  lemma SubMenusInsideContainer()
    ensures forall l :: l in SubMenus ==> StartsWith(l, SubMenuContainer)
  {
    assert SubMenuContainer == SubMenuContainer + [];
  }

  /** getSubMenuLocator: the sub-menu of a category that has one, the
      generic sub-menu container otherwise. */
  function SubMenuLocator(anaKategori: string): (r: string)
    ensures ToLowerCase(anaKategori) !in SubMenuNames ==> r == SubMenuContainer
    ensures r in SubMenus
  {
    var key := ToLowerCase(anaKategori);
    if key == "eğlence" || key == "eglence" then EglenceSubMenu
    else if key == "diğer" || key == "diger" then DigerSubMenu
    else if key == "galeri" then GaleriSubMenu
    else if key == "sabah tv" || key == "sabahtv" then SabahTvSubMenu
    else if key == "video galeri" || key == "videogaleri" then VideoGaleriSubMenu
    else if key == "ekler" then EklerSubMenu
    else if key == "şans oyunları" || key == "sans oyunlari" then SansOyunlariSubMenu
    else SubMenuContainer
  }

  /** The locator selectSubMenuItem clicks: the entry with the given text
      inside the category's sub-menu, hence inside the container. */
  function SubMenuItemLocator(anaKategori: string, altKategori: string): (r: string)
    ensures StartsWith(r, SubMenuLocator(anaKategori))
    ensures StartsWith(r, SubMenuContainer)
    ensures EndsWith(r, " a:has-text('" + altKategori + "')")
  {
    var sub := SubMenuLocator(anaKategori);
    var tail := " a:has-text('" + altKategori + "')";
    var r := sub + tail;
    assert r[..|sub|] == sub;
    assert r[|r| - |tail|..] == tail;
    SubMenusInsideContainer();
    StartsWithTransitive(r, sub, SubMenuContainer);
    r
  }

  // ------------------------------------------------------------------
  // Closed tables over the lower-cased name
  // ------------------------------------------------------------------

  /** goToOtherSite's switch on a lower-cased name: five sites. */
  function OtherSiteLink(key: string): (r: Option<string>)
    ensures r.Some? <==> key in {"sabahspor", "günaydın", "gunaydin", "finans", "roza", "memurlar"}
    ensures r.Some? ==> r.value in {SabahSporLink, GunaydinLink, FinansLink, RozaLink, MemurlarLink}
  {
    if key == "sabahspor" then Some(SabahSporLink)
    else if key == "günaydın" || key == "gunaydin" then Some(GunaydinLink)
    else if key == "finans" then Some(FinansLink)
    else if key == "roza" then Some(RozaLink)
    else if key == "memurlar" then Some(MemurlarLink)
    else None
  }

  /** The site link for goToOtherSite; any other name is rejected. */
  function OtherSiteLocator(siteName: string): (r: Result<string>)
    ensures r.Success? <==> ToLowerCase(siteName) in {"sabahspor", "günaydın", "gunaydin", "finans", "roza", "memurlar"}
    ensures r.Success? ==> r.value in {SabahSporLink, GunaydinLink, FinansLink, RozaLink, MemurlarLink}
    ensures r.Failure? ==> r.error == "Geçersiz site adı: " + siteName
  {
    match OtherSiteLink(ToLowerCase(siteName))
    case Some(link) => Success(link)
    case None => Failure("Geçersiz site adı: " + siteName)
  }

  /** Kobi and video have locators but no case in the switch, so they are
      rejected; "GÜNAYDIN" lower-cases to "günaydin" (a plain I becomes a
      dotted i), which is neither spelling, while "Günaydın" and
      "GUNAYDIN" are accepted. */
  lemma OtherSiteKeys()
    ensures OtherSiteLink("kobi") == None && OtherSiteLink("video") == None
    ensures OtherSiteLink("günaydin") == None
    ensures OtherSiteLink("günaydın") == OtherSiteLink("gunaydin") == Some(GunaydinLink)
  {
  }

  lemma LowerCaseOfGunaydinCaps()
    ensures ToLowerCase("GÜNAYDIN") == "günaydin"
  {
    ToLowerCaseCharwise("GÜNAYDIN");
  }

  /** "GÜNAYDIN" is rejected: its lower case "günaydin" is neither spelling. */
  lemma GunaydinCapsIsRejected()
    ensures OtherSiteLocator("GÜNAYDIN") == Failure("Geçersiz site adı: GÜNAYDIN")
  {
    LowerCaseOfGunaydinCaps();
    OtherSiteKeys();
  }

  /** clickSocialMediaIcon's switch on a lower-cased name; "x" is another
      name for Twitter. */
  function SocialMediaIcon(key: string): (r: Option<string>)
    ensures r.Some? <==> key in {"facebook", "twitter", "x", "instagram", "youtube"}
    ensures r.Some? ==> r.value in {FacebookIcon, TwitterIcon, InstagramIcon, YoutubeIcon}
  {
    if key == "facebook" then Some(FacebookIcon)
    else if key == "twitter" || key == "x" then Some(TwitterIcon)
    else if key == "instagram" then Some(InstagramIcon)
    else if key == "youtube" then Some(YoutubeIcon)
    else None
  }

  /** The icon for clickSocialMediaIcon; any other platform is rejected. */
  function SocialMediaLocator(platform: string): (r: Result<string>)
    ensures r.Success? <==> ToLowerCase(platform) in {"facebook", "twitter", "x", "instagram", "youtube"}
    ensures r.Success? ==> r.value in {FacebookIcon, TwitterIcon, InstagramIcon, YoutubeIcon}
    ensures r.Failure? ==> r.error == "Geçersiz platform: " + platform
  {
    match SocialMediaIcon(ToLowerCase(platform))
    case Some(icon) => Success(icon)
    case None => Failure("Geçersiz platform: " + platform)
  }

  lemma SocialMediaKeys()
    ensures SocialMediaIcon("x") == SocialMediaIcon("twitter") == Some(TwitterIcon)
    ensures SocialMediaIcon("tiktok") == None
  {
  }

  /** getBorsaData's switch on a lower-cased name. */
  function BorsaField(key: string): (r: Option<string>)
    ensures r.Some? <==> key in {"bist", "dolar", "euro", "altın", "altin", "bitcoin"}
    ensures r.Some? ==> r.value in {BistVeri, DolarVeri, EuroVeri, AltinVeri, BitcoinVeri}
  {
    if key == "bist" then Some(BistVeri)
    else if key == "dolar" then Some(DolarVeri)
    else if key == "euro" then Some(EuroVeri)
    else if key == "altın" || key == "altin" then Some(AltinVeri)
    else if key == "bitcoin" then Some(BitcoinVeri)
    else None
  }

  /** The locator getBorsaData reads; any other data type is rejected
      before the page is read. */
  function BorsaLocator(veriTipi: string): (r: Result<string>)
    ensures r.Success? <==> ToLowerCase(veriTipi) in {"bist", "dolar", "euro", "altın", "altin", "bitcoin"}
    ensures r.Success? ==> r.value in {BistVeri, DolarVeri, EuroVeri, AltinVeri, BitcoinVeri}
    ensures r.Failure? ==> r.error == "Geçersiz veri tipi: " + veriTipi
  {
    match BorsaField(ToLowerCase(veriTipi))
    case Some(field) => Success(field)
    case None => Failure("Geçersiz veri tipi: " + veriTipi)
  }

  lemma BorsaKeys()
    ensures BorsaField("altın") == BorsaField("altin") == Some(AltinVeri)
    ensures BorsaField("sterlin") == None
  {
  }

  /** clickCanliYayinLink's switch on a lower-cased name. */
  function CanliYayinChannel(key: string): (r: Option<string>)
    ensures r.Some? <==> key in {"ahaber", "apara", "aspor", "atv", "a2", "vavtv", "ziraat"}
    ensures r.Some? ==> r.value in {AhaberCanliLink, AparaCanliLink, AsporCanliLink, AtvCanliLink,
                                    A2CanliLink, VavTvCanliLink, ZiraatKupasiCanliLink}
  {
    if key == "ahaber" then Some(AhaberCanliLink)
    else if key == "apara" then Some(AparaCanliLink)
    else if key == "aspor" then Some(AsporCanliLink)
    else if key == "atv" then Some(AtvCanliLink)
    else if key == "a2" then Some(A2CanliLink)
    else if key == "vavtv" then Some(VavTvCanliLink)
    else if key == "ziraat" then Some(ZiraatKupasiCanliLink)
    else None
  }

  /** The live-stream link clickCanliYayinLink clicks; any other channel is
      rejected. */
  function CanliYayinLocator(kanalAdi: string): (r: Result<string>)
    ensures r.Success? <==> ToLowerCase(kanalAdi) in {"ahaber", "apara", "aspor", "atv", "a2", "vavtv", "ziraat"}
    ensures r.Success? ==> r.value in {AhaberCanliLink, AparaCanliLink, AsporCanliLink, AtvCanliLink,
                                       A2CanliLink, VavTvCanliLink, ZiraatKupasiCanliLink}
    ensures r.Failure? ==> r.error == "Geçersiz kanal adı: " + kanalAdi
  {
    match CanliYayinChannel(ToLowerCase(kanalAdi))
    case Some(link) => Success(link)
    case None => Failure("Geçersiz kanal adı: " + kanalAdi)
  }

  lemma CanliYayinKeys()
    ensures CanliYayinChannel("ahaber") == Some(AhaberCanliLink)
    ensures CanliYayinChannel("trt") == None
  {
  }

  /** Every closed table answers alike for a name and its lower case. */
  lemma ClosedTablesCaseInsensitive(name: string)
    ensures OtherSiteLocator(ToLowerCase(name)).Success? == OtherSiteLocator(name).Success?
    ensures SocialMediaLocator(ToLowerCase(name)).Success? == SocialMediaLocator(name).Success?
    ensures BorsaLocator(ToLowerCase(name)).Success? == BorsaLocator(name).Success?
    ensures CanliYayinLocator(name).Success? ==> CanliYayinLocator(ToLowerCase(name)) == CanliYayinLocator(name)
  {
    ToLowerCaseIdempotent(name);
  }

  // ------------------------------------------------------------------
  // Hamburger-menu category texts
  // ------------------------------------------------------------------

  /** The menu entries' texts, trimmed, in order, without the null and the
      blank ones. */
  function FilterCategories(texts: seq<Option<string>>): (r: seq<string>)
    ensures |r| <= |texts|
    ensures forall k :: 0 <= k < |r| ==> r[k] != [] && Trim(r[k]) == r[k]
  {
    if texts == [] then []
    else
      var rest := FilterCategories(texts[..|texts| - 1]);
      var last := texts[|texts| - 1];
      if last.Some? && !Blank(Trim(last.value)) then
        TrimIdempotent(last.value);
        rest + [Trim(last.value)]
      else rest
  }

  /** Every category comes from some entry's text. */
  lemma {:induction false} CategoriesComeFromEntries(texts: seq<Option<string>>, k: nat)
    requires k < |FilterCategories(texts)|
    ensures exists i :: 0 <= i < |texts| && texts[i].Some? && Trim(texts[i].value) == FilterCategories(texts)[k]
  {
    var n := |texts|;
    var rest := FilterCategories(texts[..n - 1]);
    var last := texts[n - 1];
    if k < |rest| {
      CategoriesComeFromEntries(texts[..n - 1], k);
      var i :| 0 <= i < n - 1 && texts[..n - 1][i].Some? && Trim(texts[..n - 1][i].value) == rest[k];
      assert texts[i] == texts[..n - 1][i];
    } else {
      assert texts[n - 1].Some? && Trim(texts[n - 1].value) == FilterCategories(texts)[k];
    }
  }

  /** The categories of one entry: its trimmed text when it is present and
      not blank, nothing otherwise. */
  lemma FilterOne(t: Option<string>)
    ensures FilterCategories([t]) == (if t.Some? && !Blank(Trim(t.value)) then [Trim(t.value)] else [])
  {
    assert [t][..0] == [];
  }

  /** Filtering a concatenation filters each part, in order. */
  lemma {:induction false} FilterConcat(a: seq<Option<string>>, b: seq<Option<string>>)
    ensures FilterCategories(a + b) == FilterCategories(a) + FilterCategories(b)
    decreases |b|
  {
    if b == [] {
      assert a + b == a;
    } else {
      var n := |b| - 1;
      assert (a + b)[..|a + b| - 1] == a + b[..n];
      FilterConcat(a, b[..n]);
    }
  }

  /** When no entry is null or blank, every entry is kept, trimmed, in its
      place. */
  lemma {:induction false} NonBlankEntriesAreKept(texts: seq<Option<string>>)
    requires forall i :: 0 <= i < |texts| ==> texts[i].Some? && !Blank(Trim(texts[i].value))
    ensures |FilterCategories(texts)| == |texts|
    ensures forall i :: 0 <= i < |texts| ==> FilterCategories(texts)[i] == Trim(texts[i].value)
  {
    if texts != [] {
      NonBlankEntriesAreKept(texts[..|texts| - 1]);
    }
  }

  // ------------------------------------------------------------------
  // The component
  // ------------------------------------------------------------------

  /** What the component does to the page. */
  datatype Action = Click(locator: string) | Hover(locator: string) | PressKey(key: string)

  class HeaderComponent {
    /** Whether the hamburger menu panel is visible. */
    var menuOpen: bool
    /** The clicks, hovers and key presses sent to the page so far. */
    var actions: seq<Action>

    constructor(panelVisible: bool)
      ensures menuOpen == panelVisible && actions == []
    {
      menuOpen := panelVisible;
      actions := [];
    }

    /** isHamburgerMenuOpen. */
    predicate IsHamburgerMenuOpen()
      reads this
    {
      menuOpen
    }

    /** openHamburgerMenu: clicks the menu icon only when the panel is
        hidden; afterwards the panel is visible. */
    method OpenHamburgerMenu()
      modifies this
      ensures menuOpen
      ensures actions == old(actions) + (if old(menuOpen) then [] else [Click(HamburgerMenuIcon)])
    {
      if !IsHamburgerMenuOpen() {
        actions := actions + [Click(HamburgerMenuIcon)];
        menuOpen := true;
      }
    }

    /** closeHamburgerMenu: clicks the close icon only when the panel is
        visible; afterwards the panel is hidden. */
    method CloseHamburgerMenu()
      modifies this
      ensures !menuOpen
      ensures actions == old(actions) + (if old(menuOpen) then [Click(CloseMenuIcon)] else [])
    {
      if IsHamburgerMenuOpen() {
        actions := actions + [Click(CloseMenuIcon)];
        menuOpen := false;
      }
    }

    /** closeHamburgerMenuWithEsc: presses Escape only when the panel is
        visible. */
    method CloseHamburgerMenuWithEsc()
      modifies this
      ensures !menuOpen
      ensures actions == old(actions) + (if old(menuOpen) then [PressKey("Escape")] else [])
    {
      if IsHamburgerMenuOpen() {
        actions := actions + [PressKey("Escape")];
        menuOpen := false;
      }
    }

    /** closeHamburgerMenuByClickingOverlay: clicks the overlay only when
        the panel is visible. */
    method CloseHamburgerMenuByClickingOverlay()
      modifies this
      ensures !menuOpen
      ensures actions == old(actions) + (if old(menuOpen) then [Click(MenuOverlay)] else [])
    {
      if IsHamburgerMenuOpen() {
        actions := actions + [Click(MenuOverlay)];
        menuOpen := false;
      }
    }

    /** The toggle scenario: from closed, opening then closing clicks the
        menu icon and the close icon once each and ends closed; opening or
        closing twice clicks once. */
    method ToggleTwice()
      modifies this
      requires !menuOpen
      ensures !menuOpen
      ensures actions == old(actions) + [Click(HamburgerMenuIcon), Click(CloseMenuIcon)]
    {
      OpenHamburgerMenu();
      OpenHamburgerMenu();
      CloseHamburgerMenu();
      CloseHamburgerMenu();
    }

    /** clickMainMenuItem: clicks the main-menu link, or fails without
        touching the page. */
    method ClickMainMenuItem(menuItem: string) returns (r: Result<string>)
      modifies this
      ensures r == MainMenuLocator(menuItem)
      ensures menuOpen == old(menuOpen)
      ensures actions == old(actions) + (if r.Success? then [Click(r.value)] else [])
    {
      r := MainMenuLocator(menuItem);
      if r.Success? {
        actions := actions + [Click(r.value)];
      }
    }

    /** goToOtherSite. */
    method GoToOtherSite(siteName: string) returns (r: Result<string>)
      modifies this
      ensures r == OtherSiteLocator(siteName)
      ensures menuOpen == old(menuOpen)
      ensures actions == old(actions) + (if r.Success? then [Click(r.value)] else [])
    {
      r := OtherSiteLocator(siteName);
      if r.Success? {
        actions := actions + [Click(r.value)];
      }
    }

    /** clickSocialMediaIcon. */
    method ClickSocialMediaIcon(platform: string) returns (r: Result<string>)
      modifies this
      ensures r == SocialMediaLocator(platform)
      ensures menuOpen == old(menuOpen)
      ensures actions == old(actions) + (if r.Success? then [Click(r.value)] else [])
    {
      r := SocialMediaLocator(platform);
      if r.Success? {
        actions := actions + [Click(r.value)];
      }
    }

    /** selectFromHamburgerMenu: opens the menu, then clicks the item. */
    method SelectFromHamburgerMenu(kategori: string)
      modifies this
      ensures menuOpen
      ensures actions == old(actions) + (if old(menuOpen) then [] else [Click(HamburgerMenuIcon)])
                         + [Click(HamburgerMenuItemLocator(kategori))]
    {
      OpenHamburgerMenu();
      actions := actions + [Click(HamburgerMenuItemLocator(kategori))];
    }

    /** hoverOnHamburgerMenuItem: opens the menu, then hovers over the item. */
    method HoverOnHamburgerMenuItem(anaKategori: string)
      modifies this
      ensures menuOpen
      ensures actions == old(actions) + (if old(menuOpen) then [] else [Click(HamburgerMenuIcon)])
                         + [Hover(HamburgerMenuItemLocator(anaKategori))]
    {
      OpenHamburgerMenu();
      actions := actions + [Hover(HamburgerMenuItemLocator(anaKategori))];
    }

    /** selectSubMenuItem: hovers over the category, then clicks the
        entry with the given text inside its sub-menu. */
    method SelectSubMenuItem(anaKategori: string, altKategori: string)
      modifies this
      ensures menuOpen
      ensures actions == old(actions) + (if old(menuOpen) then [] else [Click(HamburgerMenuIcon)])
                         + [Hover(HamburgerMenuItemLocator(anaKategori)),
                            Click(SubMenuItemLocator(anaKategori, altKategori))]
    {
      HoverOnHamburgerMenuItem(anaKategori);
      actions := actions + [Click(SubMenuItemLocator(anaKategori, altKategori))];
    }

    /** clickCanliYayinLink: opens the menu first, so an unknown channel
        fails with the menu already open. */
    method ClickCanliYayinLink(kanalAdi: string) returns (r: Result<string>)
      modifies this
      ensures r == CanliYayinLocator(kanalAdi)
      ensures menuOpen
      ensures actions == old(actions) + (if old(menuOpen) then [] else [Click(HamburgerMenuIcon)])
                         + (if r.Success? then [Click(r.value)] else [])
    {
      OpenHamburgerMenu();
      r := CanliYayinLocator(kanalAdi);
      if r.Success? {
        actions := actions + [Click(r.value)];
      }
    }

    /** getHamburgerMenuCategories: opens the menu, then walks the entries'
        texts keeping the trimmed non-blank ones. */
    method GetHamburgerMenuCategories(texts: seq<Option<string>>) returns (categories: seq<string>)
      modifies this
      ensures menuOpen
      ensures actions == old(actions) + (if old(menuOpen) then [] else [Click(HamburgerMenuIcon)])
      ensures categories == FilterCategories(texts)
    {
      OpenHamburgerMenu();
      categories := [];
      var i := 0;
      while i < |texts|
        invariant 0 <= i <= |texts|
        invariant categories == FilterCategories(texts[..i])
      {
        var text := texts[i];
        assert texts[..i + 1][..i] == texts[..i];
        if text.Some? && !Blank(Trim(text.value)) {
          categories := categories + [Trim(text.value)];
        }
        i := i + 1;
      }
      assert texts[..|texts|] == texts;
    }
  }
}
