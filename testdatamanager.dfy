/** The test-data table: key/value pairs read from a properties file, or a
    built-in default table when the file cannot be read, with lookups that
    fall back to a default, comma-separated list getters, fixed-shape map
    and list getters, and a random pick among the keys with a prefix.
    The static table of the original is the field of one object here;
    reading and parsing the file is outside the model, so a load receives
    the parsed table, or None when the file could not be opened. */
module TestData {
  import opened Wrappers
  import opened JavaStrings

  /** The table createDefaultTestData installs. */
  const DefaultTestData: map<string, string> := map[
    "search.keywords" := "gündem" + "," + "ekonomi" + "," + "spor" + "," + "teknoloji",
    "search.valid" := "haber",
    "search.invalid" := "xyz123abc",
    "categories.main" := "gündem" + "," + "ekonomi" + "," + "spor" + "," + "yaşam" + "," + "dünya",
    "categories.sub" := "futbol" + "," + "basketbol" + "," + "tenis",
    "social.facebook" := "https://www.facebook.com/sabah",
    "social.twitter" := "https://twitter.com/sabah",
    "social.instagram" := "https://www.instagram.com/sabah",
    "social.youtube" := "https://www.youtube.com/sabah",
    "borsa.bist" := "BIST",
    "borsa.dolar" := "Dolar",
    "borsa.euro" := "Euro",
    "borsa.altin" := "Altın",
    "user.valid.email" := "test@example.com",
    "user.valid.password" := "Test123!",
    "user.invalid.email" := "invalid@test.com",
    "user.invalid.password" := "wrong"]

  class TestDataManager {
    var testData: map<string, string>

    /** The class initialiser: loads the table once. */
    constructor(file: Option<map<string, string>>)
      ensures file.Some? ==> testData == file.value
      ensures file.None? ==> testData == DefaultTestData
    {
      match file
      case Some(table) => testData := table;
      case None => testData := DefaultTestData;
    }

    /** loadTestData: the file's table, or the default table when the file
        cannot be read. */
    method LoadTestData(file: Option<map<string, string>>)
      modifies this
      ensures file.Some? ==> testData == file.value
      ensures file.None? ==> testData == DefaultTestData
    {
      match file
      case Some(table) =>
        testData := table;
      case None =>
        CreateDefaultTestData();
    }

    /** reloadTestData. */
    method ReloadTestData(file: Option<map<string, string>>)
      modifies this
      ensures file.Some? ==> testData == file.value
      ensures file.None? ==> testData == DefaultTestData
    {
      LoadTestData(file);
    }

    /** createDefaultTestData: a fresh table filled one property at a time. */
    method CreateDefaultTestData()
      modifies this
      ensures testData == DefaultTestData
    {
      testData := map[];
      testData := testData["search.keywords" := "gündem" + "," + "ekonomi" + "," + "spor" + "," + "teknoloji"];
      testData := testData["search.valid" := "haber"];
      testData := testData["search.invalid" := "xyz123abc"];
      testData := testData["categories.main" := "gündem" + "," + "ekonomi" + "," + "spor" + "," + "yaşam" + "," + "dünya"];
      testData := testData["categories.sub" := "futbol" + "," + "basketbol" + "," + "tenis"];
      testData := testData["social.facebook" := "https://www.facebook.com/sabah"];
      testData := testData["social.twitter" := "https://twitter.com/sabah"];
      testData := testData["social.instagram" := "https://www.instagram.com/sabah"];
      testData := testData["social.youtube" := "https://www.youtube.com/sabah"];
      testData := testData["borsa.bist" := "BIST"];
      testData := testData["borsa.dolar" := "Dolar"];
      testData := testData["borsa.euro" := "Euro"];
      testData := testData["borsa.altin" := "Altın"];
      testData := testData["user.valid.email" := "test@example.com"];
      testData := testData["user.valid.password" := "Test123!"];
      testData := testData["user.invalid.email" := "invalid@test.com"];
      testData := testData["user.invalid.password" := "wrong"];
    }

    /** getTestData(key, defaultValue): the stored value, or the given
        default for a missing key. */
    function GetTestDataOr(key: string, defaultValue: string): (v: string)
      reads this
      ensures key in testData ==> v == testData[key]
      ensures key !in testData ==> v == defaultValue
    {
      if key in testData then testData[key] else defaultValue
    }

    /** getTestData(key): the stored value, or "" for a missing key. */
    function GetTestData(key: string): (v: string)
      reads this
      ensures v == GetTestDataOr(key, "")
      ensures key !in testData ==> v == ""
    {
      if key in testData then testData[key] else ""
    }

    /** getSearchKeywords: the stored list split on ","; the pieces hold
        no comma. */
    function SearchKeywords(): (r: seq<string>)
      reads this
      ensures forall i :: 0 <= i < |r| ==> ',' !in r[i]
      ensures "search.keywords" !in testData ==> r == [""]
    {
      SplitPiecesHaveNoSeparator(GetTestData("search.keywords"), ',');
      Split(GetTestData("search.keywords"), ',')
    }

    /** getMainCategories. */
    function MainCategories(): (r: seq<string>)
      reads this
      ensures forall i :: 0 <= i < |r| ==> ',' !in r[i]
      ensures "categories.main" !in testData ==> r == [""]
    {
      SplitPiecesHaveNoSeparator(GetTestData("categories.main"), ',');
      Split(GetTestData("categories.main"), ',')
    }

    /** getSubCategories. */
    function SubCategories(): (r: seq<string>)
      reads this
      ensures forall i :: 0 <= i < |r| ==> ',' !in r[i]
      ensures "categories.sub" !in testData ==> r == [""]
    {
      SplitPiecesHaveNoSeparator(GetTestData("categories.sub"), ',');
      Split(GetTestData("categories.sub"), ',')
    }

    /** getSocialMediaLinks: exactly the four platforms, each with its
        stored link. */
    function SocialMediaLinks(): (m: map<string, string>)
      reads this
      ensures m.Keys == {"facebook", "twitter", "instagram", "youtube"}
      ensures m["facebook"] == GetTestData("social.facebook")
      ensures m["twitter"] == GetTestData("social.twitter")
      ensures m["instagram"] == GetTestData("social.instagram")
      ensures m["youtube"] == GetTestData("social.youtube")
    {
      map["facebook" := GetTestData("social.facebook"),
          "twitter" := GetTestData("social.twitter"),
          "instagram" := GetTestData("social.instagram"),
          "youtube" := GetTestData("social.youtube")]
    }

    /** getBorsaData: four values, in the order bist, dolar, euro, altin. */
    function BorsaData(): (r: seq<string>)
      reads this
      ensures |r| == 4
      ensures r[0] == GetTestData("borsa.bist") && r[1] == GetTestData("borsa.dolar")
      ensures r[2] == GetTestData("borsa.euro") && r[3] == GetTestData("borsa.altin")
    {
      [GetTestData("borsa.bist"), GetTestData("borsa.dolar"),
       GetTestData("borsa.euro"), GetTestData("borsa.altin")]
    }

    /** getValidUser: an e-mail and a password. */
    function ValidUser(): (m: map<string, string>)
      reads this
      ensures m.Keys == {"email", "password"}
      ensures m["email"] == GetTestData("user.valid.email")
      ensures m["password"] == GetTestData("user.valid.password")
    {
      map["email" := GetTestData("user.valid.email"), "password" := GetTestData("user.valid.password")]
    }

    /** getInvalidUser: an e-mail and a password. */
    function InvalidUser(): (m: map<string, string>)
      reads this
      ensures m.Keys == {"email", "password"}
      ensures m["email"] == GetTestData("user.invalid.email")
      ensures m["password"] == GetTestData("user.invalid.password")
    {
      map["email" := GetTestData("user.invalid.email"), "password" := GetTestData("user.invalid.password")]
    }

    /** getRandomTestData: collects the values of the keys that start with
        the prefix, visiting the keys in no particular order, and returns
        one of them chosen at random, or "" when there is none. */
    method GetRandomTestData(keyPrefix: string) returns (value: string)
      ensures (forall k :: k in testData ==> !StartsWith(k, keyPrefix)) ==> value == ""
      ensures (exists k :: k in testData && StartsWith(k, keyPrefix)) ==>
                exists k :: k in testData && StartsWith(k, keyPrefix) && value == testData[k]
    {
      var values: seq<string> := [];
      var keys := testData.Keys;
      ghost var visited: set<string> := {};
      while keys != {}
        invariant keys + visited == testData.Keys && keys !! visited
        invariant forall v :: v in values ==> exists k :: k in testData && StartsWith(k, keyPrefix) && v == testData[k]
        invariant values == [] ==> forall k :: k in visited ==> !StartsWith(k, keyPrefix)
        decreases keys
      {
        var key :| key in keys;
        if StartsWith(key, keyPrefix) {
          values := values + [testData[key]];
        }
        keys := keys - {key};
        visited := visited + {key};
      }
      if values == [] {
        return "";
      }
      var i :| 0 <= i < |values|;
      value := values[i];
      assert value in values;
    }
  }

  /** The default table's keyword list splits to its four keywords. */
  lemma DefaultSearchKeywords(m: TestDataManager)
    requires m.testData == DefaultTestData
    ensures m.SearchKeywords() == ["gündem", "ekonomi", "spor", "teknoloji"]
  {
    var ps := ["gündem", "ekonomi", "spor", "teknoloji"];
    assert Join(ps[2..], ',') == "spor" + "," + "teknoloji";
    assert Join(ps[1..], ',') == "ekonomi" + "," + "spor" + "," + "teknoloji";
    assert Join(ps, ',') == "gündem" + "," + "ekonomi" + "," + "spor" + "," + "teknoloji";
    SplitJoin(ps, ',');
  }

  /** The default table's main categories. */
  lemma DefaultMainCategories(m: TestDataManager)
    requires m.testData == DefaultTestData
    ensures m.MainCategories() == ["gündem", "ekonomi", "spor", "yaşam", "dünya"]
  {
    var ps := ["gündem", "ekonomi", "spor", "yaşam", "dünya"];
    assert Join(ps[3..], ',') == "yaşam" + "," + "dünya";
    assert Join(ps[2..], ',') == "spor" + "," + "yaşam" + "," + "dünya";
    assert Join(ps[1..], ',') == "ekonomi" + "," + "spor" + "," + "yaşam" + "," + "dünya";
    assert Join(ps, ',') == "gündem" + "," + "ekonomi" + "," + "spor" + "," + "yaşam" + "," + "dünya";
    SplitJoin(ps, ',');
  }

  /** The default table's sub-categories. */
  lemma DefaultSubCategories(m: TestDataManager)
    requires m.testData == DefaultTestData
    ensures m.SubCategories() == ["futbol", "basketbol", "tenis"]
  {
    var ps := ["futbol", "basketbol", "tenis"];
    assert Join(ps, ',') == "futbol" + "," + "basketbol" + "," + "tenis";
    SplitJoin(ps, ',');
  }

  /** The default table's market names, in order. */
  lemma DefaultBorsaData(m: TestDataManager)
    requires m.testData == DefaultTestData
    ensures m.BorsaData() == ["BIST", "Dolar", "Euro", "Altın"]
  {
  }

  /** With the default table, "search.valid" is "haber" and an unknown key
      is "" (or the given default). */
  lemma DefaultLookups(m: TestDataManager)
    requires m.testData == DefaultTestData
    ensures m.GetTestData("search.valid") == "haber"
    ensures m.GetTestData("search.missing") == ""
    ensures m.GetTestDataOr("search.missing", "x") == "x"
  {
  }
}
