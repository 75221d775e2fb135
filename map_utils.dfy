/** The region-code table that recentres the map: the coordinates of each provincial
    or metropolitan government office, with Seoul City Hall for every other code. */
module MapUtils {
  import opened Entities

  /** Seoul City Hall: the Seoul entry, the fallback, and the map's start position. */
  const SeoulCityHall := Coordinate(37.56677014292466, 126.97865227425055)

  /** The named codes and their coordinates, as a reference table. */
  const RegionTable: map<string, Coordinate> := map[
    "SEOUL" := Coordinate(37.56677014292466, 126.97865227425055),
    "GYEONGGI" := Coordinate(37.26321417323435, 127.03286213616008),
    "GANGWON" := Coordinate(37.8853257858209, 127.729829010354),
    "BUSAN" := Coordinate(35.179675369619964, 129.0750113723),
    "INCHEON" := Coordinate(37.455923629216066, 126.70536010784367),
    "DAEGU" := Coordinate(35.8713802646197, 128.601805491072),
    "DAEJEON" := Coordinate(36.3505388992836, 127.38483484675),
    "GWANGJU" := Coordinate(35.1601037626662, 126.851629955742),
    "ULSAN" := Coordinate(35.5395955247058, 129.311603446508),
    "CHUNGBUK" := Coordinate(36.63527014888193, 127.49183021883579),
    "CHUNGNAM" := Coordinate(36.6588292532864, 126.672776193822),
    "GYEONGNAM" := Coordinate(35.2377742104522, 128.69189688916),
    "GYEONGBUK" := Coordinate(36.5759962255808, 128.505799255401),
    "JEJU" := Coordinate(33.4889179032603, 126.498229141199),
    "JEONNAM" := Coordinate(34.816111078663184, 126.4628078191417),
    "JEONBUK" := Coordinate(35.8201963639272, 127.108976712011)
  ]

  /** A rough bounding box of South Korea. */
  predicate InSouthKorea(c: Coordinate) {
    33.0 <= c.lat <= 39.0 && 124.0 <= c.lng <= 132.0
  }

  /** The camera target for a region: total, and decided by the code alone. */
  function GetCoordinate(region: Region): (c: Coordinate)
    ensures region.code in RegionTable ==> c == RegionTable[region.code]
    ensures region.code !in RegionTable ==> c == SeoulCityHall
    ensures InSouthKorea(c)
  {
    match region.code
    case "SEOUL" => Coordinate(37.56677014292466, 126.97865227425055)
    case "GYEONGGI" => Coordinate(37.26321417323435, 127.03286213616008)
    case "GANGWON" => Coordinate(37.8853257858209, 127.729829010354)
    case "BUSAN" => Coordinate(35.179675369619964, 129.0750113723)
    case "INCHEON" => Coordinate(37.455923629216066, 126.70536010784367)
    case "DAEGU" => Coordinate(35.8713802646197, 128.601805491072)
    case "DAEJEON" => Coordinate(36.3505388992836, 127.38483484675)
    case "GWANGJU" => Coordinate(35.1601037626662, 126.851629955742)
    case "ULSAN" => Coordinate(35.5395955247058, 129.311603446508)
    case "CHUNGBUK" => Coordinate(36.63527014888193, 127.49183021883579)
    case "CHUNGNAM" => Coordinate(36.6588292532864, 126.672776193822)
    case "GYEONGNAM" => Coordinate(35.2377742104522, 128.69189688916)
    case "GYEONGBUK" => Coordinate(36.5759962255808, 128.505799255401)
    case "JEJU" => Coordinate(33.4889179032603, 126.498229141199)
    case "JEONNAM" => Coordinate(34.816111078663184, 126.4628078191417)
    case "JEONBUK" => Coordinate(35.8201963639272, 127.108976712011)
    case _ => Coordinate(37.56677014292466, 126.97865227425055)
  }

  /** The Seoul entry and the fallback are the same point. */
  lemma SeoulIsTheFallback(seoul: Region, other: Region)
    requires seoul.code == "SEOUL" && other.code !in RegionTable
    ensures GetCoordinate(seoul) == GetCoordinate(other) == SeoulCityHall
  {
  }

  /** The "all regions" entry of the region list centres on Seoul. */
  lemma AllRegionsCentreOnSeoul(region: Region)
    requires region.code == "ALL"
    ensures GetCoordinate(region) == SeoulCityHall
  {
  }

  /** Name and count play no part in the lookup. */
  lemma CoordinateDependsOnlyOnCode(a: Region, b: Region)
    requires a.code == b.code
    ensures GetCoordinate(a) == GetCoordinate(b)
  {
  }

  /** Sixteen named codes, each with its own point. */
  lemma NamedCoordinatesDistinct(a: string, b: string)
    requires a in RegionTable && b in RegionTable && a != b
    ensures RegionTable[a] != RegionTable[b]
  {
  }
}
