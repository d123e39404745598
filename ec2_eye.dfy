/**
 * The AMI provenance classifier of the EC2 agent: every image referenced by
 * an instance in the scanned regions is classified once, with the data of
 * the first region that references it, into one of seven tiers by a
 * first-match rule chain; images in the externally shared tiers get their
 * EBS snapshot lineage recorded; counts are reported as metrics.
 */
module Ec2Eye {
  import opened Wrappers
  import opened Strings

  // ---------------------------------------------------------------------
  // Inputs (what the EC2 calls return)
  // ---------------------------------------------------------------------

  /** `get_allowed_images_settings`: `State` and the `ImageProviders` of each `ImageCriteria` entry. */
  datatype AllowedImagesSettings = AllowedImagesSettings(state: Option<string>, criteria: seq<seq<string>>)

  datatype Ebs = Ebs(snapshotId: Option<string>)
  /** A block device mapping; `ebs` is None when the mapping has no (or an empty) `Ebs` entry. */
  datatype BlockDevice = BlockDevice(ebs: Option<Ebs>)

  /** The fields of a `describe_images` record the classifier reads; None for a missing key. */
  datatype Image = Image(public: Option<bool>, ownerId: Option<string>, ownerAlias: Option<string>, blockDevices: seq<BlockDevice>)

  /** One `CreateVolumePermissions` entry; None for a missing key. */
  datatype Permission = Permission(group: Option<string>, userId: Option<string>)

  /**
   * One scanned region: the ImageId of each instance, the allowed-images
   * settings (None: the call failed), and the image and snapshot-permission
   * lookups (a missing key: the call failed).
   */
  datatype Region = Region(
    name: string,
    instances: seq<string>,
    allowedSettings: Option<AllowedImagesSettings>,
    images: map<string, seq<Image>>,
    snapshotPermissions: map<string, seq<Permission>>)

  // ---------------------------------------------------------------------
  // VendorMap
  // ---------------------------------------------------------------------

  /** The vendor lookup stub: account ID to vendor name. */
  datatype VendorMap = VendorMap(accountToName: map<string, string>)
  {
    /** The vendor name of an account, "" when there is none. */
    function VendorName(accountId: string): (r: string)
      ensures accountId !in accountToName ==> r == ""
      ensures accountId in accountToName ==> r == accountToName[accountId]
    {
      if accountId in accountToName then accountToName[accountId] else ""
    }
  }

  /** `VendorMap(mapping)`: a missing or empty mapping gives the empty map. */
  function NewVendorMap(mapping: Option<map<string, string>>): (vm: VendorMap)
    ensures mapping.None? ==> vm.accountToName == map[]
    ensures mapping.Some? ==> vm.accountToName == mapping.value
  {
    VendorMap(mapping.GetOr(map[]))
  }

  /** The map the analysis builds has no vendors: every lookup is "". */
  lemma DefaultVendorMapIsEmpty(owner: string)
    ensures NewVendorMap(None).VendorName(owner) == ""
  {}

  // ---------------------------------------------------------------------
  // Classification
  // ---------------------------------------------------------------------

  datatype Tier = Verified | SelfHosted | Allowed | Trusted | PrivateShared | KnownUnverified | UnknownUnverified

  /** The record stored for a classified AMI. */
  datatype AmiData = AmiData(alias: string, owner: string, public: bool, vendor: string, region: string)

  /** What the analysis knows besides the regions: the caller's account, the trusted list, the vendor map. */
  datatype Config = Config(caller: string, trustedList: seq<string>, vendors: VendorMap)

  const NoImage := Image(None, None, None, [])

  /** `imgs[0] if imgs else {}`, with `{}` also on a failed lookup. */
  function ImageOf(reg: Region, ami: string): (img: Image)
    ensures (ami !in reg.images || reg.images[ami] == []) ==> img == NoImage
    ensures ami in reg.images && reg.images[ami] != [] ==> img == reg.images[ami][0]
  {
    if ami in reg.images && |reg.images[ami]| > 0 then reg.images[ami][0] else NoImage
  }

  /** The providers of all criteria, flattened in order. */
  function Providers(criteria: seq<seq<string>>): (r: seq<string>)
    ensures forall p :: p in r <==> exists i | 0 <= i < |criteria| :: p in criteria[i]
  {
    if |criteria| == 0 then []
    else
      var pre := criteria[..|criteria| - 1];
      assert forall i | 0 <= i < |pre| :: pre[i] == criteria[i];
      Providers(pre) + criteria[|criteria| - 1]
  }

  /** The allowed state and accounts of a region; both empty when the settings call failed. */
  function AllowedOf(reg: Region): (r: (Option<string>, seq<string>))
    ensures reg.allowedSettings.None? ==> r == (None, [])
  {
    match reg.allowedSettings
    case None => (None, [])
    case Some(s) => (s.state, Providers(s.criteria))
  }

  /** The metadata record of an AMI read in a region, with the defaults for missing fields. */
  function DataOf(img: Image, reg: Region, vendors: VendorMap): (d: AmiData)
    ensures d.public == img.public.GetOr(false) && d.owner == img.ownerId.GetOr("") && d.alias == img.ownerAlias.GetOr("")
    ensures d.vendor == "Unknown" <==> vendors.VendorName(img.ownerId.GetOr("")) in {"", "Unknown"}
    ensures d.region == reg.name
  {
    var owner := img.ownerId.GetOr("");
    var name := vendors.VendorName(owner);
    AmiData(img.ownerAlias.GetOr(""), owner, img.public.GetOr(false), if name == "" then "Unknown" else name, reg.name)
  }

  /** The first-match rule chain. */
  function TierOf(d: AmiData, allowedState: Option<string>, allowedAccounts: seq<string>, cfg: Config): (t: Tier)
    ensures t == Verified <==> d.alias in {"amazon", "aws-marketplace"}
    ensures t == SelfHosted <==> d.alias !in {"amazon", "aws-marketplace"} && (d.alias == "self" || d.owner == cfg.caller)
    ensures t == Allowed <==>
      (d.alias !in {"amazon", "aws-marketplace", "self"} && d.owner != cfg.caller &&
       allowedState in {Some("enabled"), Some("audit-mode")} && d.owner in allowedAccounts)
    ensures t == Trusted <==>
      (d.alias !in {"amazon", "aws-marketplace", "self"} && d.owner != cfg.caller &&
       !(allowedState in {Some("enabled"), Some("audit-mode")} && d.owner in allowedAccounts) && d.owner in cfg.trustedList)
    ensures t == PrivateShared <==>
      (d.alias !in {"amazon", "aws-marketplace", "self"} && d.owner != cfg.caller &&
       !(allowedState in {Some("enabled"), Some("audit-mode")} && d.owner in allowedAccounts) && d.owner !in cfg.trustedList &&
       !d.public)
    ensures t == KnownUnverified <==>
      (d.alias !in {"amazon", "aws-marketplace", "self"} && d.owner != cfg.caller &&
       !(allowedState in {Some("enabled"), Some("audit-mode")} && d.owner in allowedAccounts) && d.owner !in cfg.trustedList &&
       d.public && d.vendor != "Unknown")
    ensures t == UnknownUnverified <==>
      (d.alias !in {"amazon", "aws-marketplace", "self"} && d.owner != cfg.caller &&
       !(allowedState in {Some("enabled"), Some("audit-mode")} && d.owner in allowedAccounts) && d.owner !in cfg.trustedList &&
       d.public && d.vendor == "Unknown")
  {
    if d.alias == "amazon" || d.alias == "aws-marketplace" then Verified
    else if d.alias == "self" || d.owner == cfg.caller then SelfHosted
    else if (allowedState == Some("enabled") || allowedState == Some("audit-mode")) && d.owner in allowedAccounts then Allowed
    else if d.owner in cfg.trustedList then Trusted
    else if !d.public then PrivateShared
    else if d.vendor != "Unknown" then KnownUnverified
    else UnknownUnverified
  }

  /** The tier and record of an AMI classified in a region. */
  function Classify(ami: string, reg: Region, cfg: Config): (Tier, AmiData) {
    var d := DataOf(ImageOf(reg, ami), reg, cfg.vendors);
    (TierOf(d, AllowedOf(reg).0, AllowedOf(reg).1, cfg), d)
  }

  /** With the vendor map the analysis builds, no AMI is ever a known unverified one. */
  lemma NeverKnownUnverified(ami: string, reg: Region, caller: string, trustedList: seq<string>)
    ensures Classify(ami, reg, Config(caller, trustedList, NewVendorMap(None))).0 != KnownUnverified
  {}

  /** Where the allowed-images settings could not be read, no AMI of the region is `allowed`. */
  lemma NoSettingsNoAllowed(ami: string, reg: Region, cfg: Config)
    requires reg.allowedSettings.None?
    ensures Classify(ami, reg, cfg).0 != Allowed
  {}

  /**
   * An AMI whose metadata could not be read is private_shared, unless the
   * caller's ID is empty, an empty owner is an allowed provider or the
   * empty owner is trusted.
   */
  lemma MissingMetadataIsPrivate(ami: string, reg: Region, cfg: Config)
    requires ami !in reg.images || reg.images[ami] == []
    requires cfg.caller != ""
    ensures var (t, d) := Classify(ami, reg, cfg);
      d.alias == "" && d.owner == "" && !d.public && d.region == reg.name &&
      t == (if AllowedOf(reg).0 in {Some("enabled"), Some("audit-mode")} && "" in AllowedOf(reg).1 then Allowed
            else if "" in cfg.trustedList then Trusted
            else PrivateShared)
  {
    assert ImageOf(reg, ami) == NoImage;
  }

  // ---------------------------------------------------------------------
  // Snapshot lineage
  // ---------------------------------------------------------------------

  datatype SnapshotInfo = SnapshotInfo(snapshotId: string, public: bool, sharedWith: seq<string>)

  /** The tiers whose AMIs get a snapshot lineage. */
  predicate HasLineageTier(t: Tier) {
    t == Allowed || t == Trusted || t == PrivateShared
  }

  /** The snapshot of a block device, when it has an `Ebs` entry with a non-empty `SnapshotId`. */
  function SnapshotOf(bd: BlockDevice): Option<string> {
    match bd.ebs
    case None => None
    case Some(e) => if e.snapshotId.Some? && e.snapshotId.value != "" then e.snapshotId else None
  }

  /** `any(p.get('Group') == 'all' for p in perms)`. */
  function AnyGroupAll(perms: seq<Permission>): (b: bool)
    ensures b <==> exists i | 0 <= i < |perms| :: perms[i].group == Some("all")
  {
    if |perms| == 0 then false
    else
      var pre := perms[..|perms| - 1];
      assert forall i | 0 <= i < |pre| :: pre[i] == perms[i];
      AnyGroupAll(pre) || perms[|perms| - 1].group == Some("all")
  }

  /** `[p.get('UserId') for p in perms if 'UserId' in p]`. */
  function UserIds(perms: seq<Permission>): (r: seq<string>)
    ensures |r| <= |perms|
    ensures forall u :: u in r <==> exists i | 0 <= i < |perms| :: perms[i].userId == Some(u)
    ensures |perms| == 1 ==> r == (if perms[0].userId.Some? then [perms[0].userId.value] else [])
  {
    if |perms| == 0 then []
    else
      var pre := perms[..|perms| - 1];
      assert forall i | 0 <= i < |pre| :: pre[i] == perms[i];
      UserIds(pre) + (if perms[|perms| - 1].userId.Some? then [perms[|perms| - 1].userId.value] else [])
  }

  /** The lineage record of one snapshot; not public and shared with nobody when the lookup failed. */
  function SnapshotInfoOf(snapId: string, reg: Region): (s: SnapshotInfo)
    ensures s.snapshotId == snapId
    ensures snapId !in reg.snapshotPermissions ==> !s.public && s.sharedWith == []
    ensures snapId in reg.snapshotPermissions ==>
      (s.public <==> exists i | 0 <= i < |reg.snapshotPermissions[snapId]| :: reg.snapshotPermissions[snapId][i].group == Some("all"))
    ensures snapId in reg.snapshotPermissions ==> s.sharedWith == UserIds(reg.snapshotPermissions[snapId])
  {
    if snapId in reg.snapshotPermissions then
      var perms := reg.snapshotPermissions[snapId];
      SnapshotInfo(snapId, AnyGroupAll(perms), UserIds(perms))
    else SnapshotInfo(snapId, false, [])
  }

  /** The snapshots of a device list, in order: the devices with an `Ebs` entry and a non-empty `SnapshotId`. */
  function SnapshotIds(devices: seq<BlockDevice>): (r: seq<string>)
    ensures |r| <= |devices|
    ensures forall id :: id in r <==> exists i | 0 <= i < |devices| :: SnapshotOf(devices[i]) == Some(id)
    ensures |devices| == 1 ==> r == (if SnapshotOf(devices[0]).Some? then [SnapshotOf(devices[0]).value] else [])
  {
    if |devices| == 0 then []
    else
      var pre := devices[..|devices| - 1];
      assert forall i | 0 <= i < |pre| :: pre[i] == devices[i];
      var last := SnapshotOf(devices[|devices| - 1]);
      SnapshotIds(pre) + (if last.Some? then [last.value] else [])
  }

  /** `UserIds` keeps the order and the repetitions of the permission list: it maps over concatenation. */
  lemma {:induction false} UserIdsAppend(a: seq<Permission>, b: seq<Permission>)
    ensures UserIds(a + b) == UserIds(a) + UserIds(b)
    decreases |b|
  {
    if |b| == 0 {
      assert a + b == a;
    } else {
      var b' := b[..|b| - 1];
      assert (a + b)[..|a + b| - 1] == a + b';
      UserIdsAppend(a, b');
    }
  }

  /** `SnapshotIds` keeps the order and the repetitions of the device list: it maps over concatenation. */
  lemma {:induction false} SnapshotIdsAppend(a: seq<BlockDevice>, b: seq<BlockDevice>)
    ensures SnapshotIds(a + b) == SnapshotIds(a) + SnapshotIds(b)
    decreases |b|
  {
    if |b| == 0 {
      assert a + b == a;
    } else {
      var b' := b[..|b| - 1];
      assert (a + b)[..|a + b| - 1] == a + b';
      SnapshotIdsAppend(a, b');
    }
  }

  /** The lineage of an image: one record per snapshot of its block devices, in order. */
  function Lineage(devices: seq<BlockDevice>, reg: Region): (r: seq<SnapshotInfo>)
    ensures |r| == |SnapshotIds(devices)|
    ensures forall i | 0 <= i < |r| :: r[i] == SnapshotInfoOf(SnapshotIds(devices)[i], reg)
  {
    if |devices| == 0 then []
    else
      var last := SnapshotOf(devices[|devices| - 1]);
      Lineage(devices[..|devices| - 1], reg) + (if last.Some? then [SnapshotInfoOf(last.value, reg)] else [])
  }

  /** The snapshot loop for one image. */
  method SnapshotLineage(img: Image, reg: Region) returns (snapsInfo: seq<SnapshotInfo>)
    ensures snapsInfo == Lineage(img.blockDevices, reg)
  {
    snapsInfo := [];
    var devices := img.blockDevices;
    for i := 0 to |devices|
      invariant snapsInfo == Lineage(devices[..i], reg)
    {
      assert devices[..i + 1][..i] == devices[..i];
      var ebs := devices[i].ebs;
      if ebs.None? {
        continue;
      }
      var snapId := ebs.value.snapshotId;
      if snapId.None? || snapId.value == "" {
        continue;
      }
      var publicSnap := false;
      var sharedWith: seq<string> := [];
      if snapId.value in reg.snapshotPermissions {
        var perms := reg.snapshotPermissions[snapId.value];
        publicSnap := AnyGroupAll(perms);
        sharedWith := UserIds(perms);
      }
      snapsInfo := snapsInfo + [SnapshotInfo(snapId.value, publicSnap, sharedWith)];
    }
    assert devices[..|devices|] == devices;
  }

  // ---------------------------------------------------------------------
  // The reference reading of a scan
  // ---------------------------------------------------------------------

  /** Every AMI referenced by an instance of the regions. */
  function ScannedAmis(regions: seq<Region>): (r: set<string>)
    ensures forall a :: a in r <==> exists k | 0 <= k < |regions| :: a in regions[k].instances
  {
    if |regions| == 0 then {}
    else
      var pre := regions[..|regions| - 1];
      assert forall k | 0 <= k < |pre| :: pre[k] == regions[k];
      ScannedAmis(pre) + Elems(regions[|regions| - 1].instances)
  }

  /** The first region referencing an AMI. */
  function FirstRegion(regions: seq<Region>, ami: string): (k: nat)
    requires ami in ScannedAmis(regions)
    ensures k < |regions| && ami in regions[k].instances
    ensures forall j | 0 <= j < k :: ami !in regions[j].instances
  {
    var pre := regions[..|regions| - 1];
    if ami in ScannedAmis(pre) then
      var k := FirstRegion(pre, ami);
      assert forall j | 0 <= j <= k :: pre[j] == regions[j];
      k
    else |regions| - 1
  }

  /** The classification the analysis gives an AMI: with the data of its first region. */
  function Reference(regions: seq<Region>, cfg: Config, ami: string): (Tier, AmiData)
    requires ami in ScannedAmis(regions)
  {
    Classify(ami, regions[FirstRegion(regions, ami)], cfg)
  }

  /** The lineage recorded for an AMI of a lineage tier, read in its first region. */
  function ReferenceLineage(regions: seq<Region>, ami: string): seq<SnapshotInfo>
    requires ami in ScannedAmis(regions)
  {
    var reg := regions[FirstRegion(regions, ami)];
    Lineage(ImageOf(reg, ami).blockDevices, reg)
  }

  function InstanceCount(regions: seq<Region>): nat {
    if |regions| == 0 then 0 else InstanceCount(regions[..|regions| - 1]) + |regions[|regions| - 1].instances|
  }

  /** Adding a region leaves the first region, and so the classification, of every AMI already seen unchanged. */
  lemma ReferenceAppend(regions: seq<Region>, reg: Region, cfg: Config, ami: string)
    ensures ScannedAmis(regions + [reg]) == ScannedAmis(regions) + Elems(reg.instances)
    ensures ami in ScannedAmis(regions) ==> FirstRegion(regions + [reg], ami) == FirstRegion(regions, ami)
    ensures ami in ScannedAmis(regions) ==> Reference(regions + [reg], cfg, ami) == Reference(regions, cfg, ami)
    ensures ami in ScannedAmis(regions) ==> ReferenceLineage(regions + [reg], ami) == ReferenceLineage(regions, ami)
    ensures ami !in ScannedAmis(regions) && ami in reg.instances ==> FirstRegion(regions + [reg], ami) == |regions|
    ensures InstanceCount(regions + [reg]) == InstanceCount(regions) + |reg.instances|
  {
    assert (regions + [reg])[..|regions|] == regions;
    if ami in ScannedAmis(regions) {
      var k := FirstRegion(regions, ami);
      assert (regions + [reg])[k] == regions[k];
    }
  }

  // ---------------------------------------------------------------------
  // The scan
  // ---------------------------------------------------------------------

  /** The seven tier dicts. */
  datatype Inventory = Inventory(
    verified: map<string, AmiData>,
    selfhosted: map<string, AmiData>,
    allowed: map<string, AmiData>,
    trusted: map<string, AmiData>,
    privateShared: map<string, AmiData>,
    knownUnverified: map<string, AmiData>,
    unknownUnverified: map<string, AmiData>)
  {
    function Get(t: Tier): map<string, AmiData> {
      match t
      case Verified => verified
      case SelfHosted => selfhosted
      case Allowed => allowed
      case Trusted => trusted
      case PrivateShared => privateShared
      case KnownUnverified => knownUnverified
      case UnknownUnverified => unknownUnverified
    }

    /** `tier[ami] = data`: only that entry of that dict changes. */
    function Put(t: Tier, ami: string, d: AmiData): (r: Inventory)
      ensures r.Get(t) == Get(t)[ami := d]
      ensures forall u | u != t :: r.Get(u) == Get(u)
    {
      match t
      case Verified => this.(verified := verified[ami := d])
      case SelfHosted => this.(selfhosted := selfhosted[ami := d])
      case Allowed => this.(allowed := allowed[ami := d])
      case Trusted => this.(trusted := trusted[ami := d])
      case PrivateShared => this.(privateShared := privateShared[ami := d])
      case KnownUnverified => this.(knownUnverified := knownUnverified[ami := d])
      case UnknownUnverified => this.(unknownUnverified := unknownUnverified[ami := d])
    }
  }

  const NoTiers := Inventory(map[], map[], map[], map[], map[], map[], map[])

  /** `processed_amis`, the seven tier dicts and `snapshot_lineage`: what classifying an AMI updates. */
  datatype Tally = Tally(processed: set<string>, tiers: Inventory, snapshotLineage: map<string, seq<SnapshotInfo>>)

  /** The reference classification of every AMI of the regions. */
  ghost function Refs(regions: seq<Region>, cfg: Config): map<string, (Tier, AmiData)> {
    map a | a in ScannedAmis(regions) :: Reference(regions, cfg, a)
  }

  /** The reference lineage of every AMI of the regions. */
  ghost function Lineages(regions: seq<Region>): map<string, seq<SnapshotInfo>> {
    map a | a in ScannedAmis(regions) :: ReferenceLineage(regions, a)
  }

  /** Whether an AMI gets a lineage entry: a lineage tier and at least one snapshot. */
  predicate LineageKept(ref: map<string, (Tier, AmiData)>, lin: map<string, seq<SnapshotInfo>>, ami: string)
    requires ami in ref && ami in lin
  {
    HasLineageTier(ref[ami].0) && lin[ami] != []
  }

  /** Each processed AMI, and no other, sits in the tier of its reference classification with its reference record. */
  ghost predicate TiersClassified(processed: set<string>, tiers: Inventory, ref: map<string, (Tier, AmiData)>)
    requires processed <= ref.Keys
  {
    forall t: Tier :: TierClassified(processed, tiers.Get(t), ref, t)
  }

  /** The dict of tier `t` holds each processed AMI of that tier, and no other, with its reference record. */
  ghost predicate TierClassified(processed: set<string>, m: map<string, AmiData>, ref: map<string, (Tier, AmiData)>, t: Tier)
    requires processed <= ref.Keys
  {
    (forall a | a in m :: a in processed && ref[a].0 == t && m[a] == ref[a].1) &&
    (forall a | a in processed && ref[a].0 == t :: a in m)
  }

  /** Each processed AMI whose lineage is kept, and no other, has its reference lineage. */
  ghost predicate LineageClassified(processed: set<string>, lineage: map<string, seq<SnapshotInfo>>,
                                    ref: map<string, (Tier, AmiData)>, lin: map<string, seq<SnapshotInfo>>)
    requires processed <= ref.Keys && processed <= lin.Keys
  {
    (forall a | a in lineage :: a in processed && LineageKept(ref, lin, a) && lineage[a] == lin[a]) &&
    (forall a | a in processed && LineageKept(ref, lin, a) :: a in lineage)
  }

  /** The processed AMIs are among those of the regions, and are filed in their tiers and lineage as the reference reading says. */
  ghost predicate Classified(tally: Tally, regions: seq<Region>, cfg: Config) {
    tally.processed <= ScannedAmis(regions) &&
    TiersClassified(tally.processed, tally.tiers, Refs(regions, cfg)) &&
    LineageClassified(tally.processed, tally.snapshotLineage, Refs(regions, cfg), Lineages(regions))
  }

  /** Filing one more AMI in the tier of its reference classification. */
  lemma TiersAdd(processed: set<string>, tiers: Inventory, ref: map<string, (Tier, AmiData)>, ami: string)
    requires processed <= ref.Keys && ami in ref && ami !in processed
    requires TiersClassified(processed, tiers, ref)
    ensures TiersClassified(processed + {ami}, tiers.Put(ref[ami].0, ami, ref[ami].1), ref)
  {
    var tiers' := tiers.Put(ref[ami].0, ami, ref[ami].1);
    forall t: Tier
      ensures TierClassified(processed + {ami}, tiers'.Get(t), ref, t)
    {
      assert TierClassified(processed, tiers.Get(t), ref, t);
      if t == ref[ami].0 {
        TierPut(processed, tiers.Get(t), ref, t, ami);
      } else {
        TierSkip(processed, tiers.Get(t), ref, t, ami);
      }
    }
  }

  /** The AMI's own tier gains it. */
  lemma TierPut(processed: set<string>, m: map<string, AmiData>, ref: map<string, (Tier, AmiData)>, t: Tier, ami: string)
    requires processed <= ref.Keys && ami in ref
    requires TierClassified(processed, m, ref, t) && ref[ami].0 == t
    ensures TierClassified(processed + {ami}, m[ami := ref[ami].1], ref, t)
  {
  }

  /** Every other tier stays as it was. */
  lemma TierSkip(processed: set<string>, m: map<string, AmiData>, ref: map<string, (Tier, AmiData)>, t: Tier, ami: string)
    requires processed <= ref.Keys && ami in ref
    requires TierClassified(processed, m, ref, t) && ref[ami].0 != t
    ensures TierClassified(processed + {ami}, m, ref, t)
  {
  }

  /** Recording one more AMI's lineage where it is kept. */
  lemma LineageAdd(processed: set<string>, lineage: map<string, seq<SnapshotInfo>>,
                   ref: map<string, (Tier, AmiData)>, lin: map<string, seq<SnapshotInfo>>, ami: string)
    requires processed <= ref.Keys && processed <= lin.Keys && ami in ref && ami in lin && ami !in processed
    requires LineageClassified(processed, lineage, ref, lin)
    ensures LineageClassified(processed + {ami}, if LineageKept(ref, lin, ami) then lineage[ami := lin[ami]] else lineage, ref, lin)
  {
  }

  /** Tables that agree on the processed AMIs classify them alike. */
  lemma ClassifiedAgree(processed: set<string>, tiers: Inventory, lineage: map<string, seq<SnapshotInfo>>,
                        ref: map<string, (Tier, AmiData)>, lin: map<string, seq<SnapshotInfo>>,
                        ref': map<string, (Tier, AmiData)>, lin': map<string, seq<SnapshotInfo>>)
    requires processed <= ref.Keys && processed <= lin.Keys && processed <= ref'.Keys && processed <= lin'.Keys
    requires forall a | a in processed :: ref'[a] == ref[a] && lin'[a] == lin[a]
    requires TiersClassified(processed, tiers, ref) && LineageClassified(processed, lineage, ref, lin)
    ensures TiersClassified(processed, tiers, ref') && LineageClassified(processed, lineage, ref', lin')
  {
    forall t: Tier
      ensures TierClassified(processed, tiers.Get(t), ref', t)
    {
      assert TierClassified(processed, tiers.Get(t), ref, t);
    }
  }

  /** Adding a region keeps every classification made so far. */
  lemma ClassifiedAppend(tally: Tally, regions: seq<Region>, reg: Region, cfg: Config)
    requires Classified(tally, regions, cfg)
    ensures Classified(tally, regions + [reg], cfg)
  {
    ReferenceAppend(regions, reg, cfg, "");
    forall a | a in tally.processed
      ensures Refs(regions + [reg], cfg)[a] == Refs(regions, cfg)[a]
      ensures Lineages(regions + [reg])[a] == Lineages(regions)[a]
    {
      ReferenceAppend(regions, reg, cfg, a);
    }
    ClassifiedAgree(tally.processed, tally.tiers, tally.snapshotLineage, Refs(regions, cfg), Lineages(regions),
      Refs(regions + [reg], cfg), Lineages(regions + [reg]));
  }

  /** Steps c and d for one AMI not yet processed, whose first region is the current one. */
  method ClassifyAmi(tally: Tally, ghost regions: seq<Region>, ami: string, reg: Region,
                     allowedState: Option<string>, allowedAccounts: seq<string>, cfg: Config) returns (tally': Tally)
    requires |regions| > 0 && reg == regions[|regions| - 1] && (allowedState, allowedAccounts) == AllowedOf(reg)
    requires Classified(tally, regions, cfg)
    requires ami in ScannedAmis(regions) && ami !in tally.processed && FirstRegion(regions, ami) == |regions| - 1
    ensures Classified(tally', regions, cfg)
    ensures tally'.processed == tally.processed + {ami}
  {
    var img := ImageOf(reg, ami);
    var data := DataOf(img, reg, cfg.vendors);
    var tier := TierOf(data, allowedState, allowedAccounts, cfg);
    ghost var ref, lin := Refs(regions, cfg), Lineages(regions);
    assert (tier, data) == ref[ami];
    TiersAdd(tally.processed, tally.tiers, ref, ami);
    LineageAdd(tally.processed, tally.snapshotLineage, ref, lin, ami);
    var lineage := tally.snapshotLineage;
    if HasLineageTier(tier) {
      var snapsInfo := SnapshotLineage(img, reg);
      assert snapsInfo == lin[ami];
      if snapsInfo != [] {
        lineage := lineage[ami := snapsInfo];
      }
    }
    tally' := Tally(tally.processed + {ami}, tally.tiers.Put(tier, ami, data), lineage);
  }

  /** Step b: record each instance's AMI as a key of `ami_to_instances`, in first-seen order. */
  method RecordAmis(amiKeys: seq<string>, instances: seq<string>) returns (keys: seq<string>)
    requires NoDup(amiKeys)
    ensures NoDup(keys) && amiKeys <= keys
    ensures Elems(keys) == Elems(amiKeys) + Elems(instances)
  {
    keys := amiKeys;
    for i := 0 to |instances|
      invariant NoDup(keys) && amiKeys <= keys
      invariant Elems(keys) == Elems(amiKeys) + Elems(instances[..i])
    {
      ElemsSnoc(instances, i);
      keys := Add(keys, instances[i]);
    }
    assert instances[..|instances|] == instances;
  }

  /** Step d for one key: classify it unless it is already processed. */
  method ClassifyKey(tally: Tally, ghost done: seq<Region>, ami: string, reg: Region,
                     allowedState: Option<string>, allowedAccounts: seq<string>, cfg: Config) returns (tally': Tally)
    requires (allowedState, allowedAccounts) == AllowedOf(reg)
    requires Classified(tally, done + [reg], cfg)
    requires ScannedAmis(done) <= tally.processed && ami in ScannedAmis(done + [reg])
    ensures Classified(tally', done + [reg], cfg)
    ensures tally'.processed == tally.processed + {ami}
  {
    if ami in tally.processed {
      AddPresent(tally.processed, ami);
      return tally;
    }
    ReferenceAppend(done, reg, cfg, ami);
    tally' := ClassifyAmi(tally, done + [reg], ami, reg, allowedState, allowedAccounts, cfg);
  }

  /** Step d: classify every key not yet processed; each of them is new in the current region. */
  method ClassifyNew(tally: Tally, ghost done: seq<Region>, keys: seq<string>, reg: Region, cfg: Config) returns (tally': Tally)
    requires Classified(tally, done + [reg], cfg)
    requires tally.processed == ScannedAmis(done)
    requires Elems(keys) == ScannedAmis(done + [reg])
    ensures Classified(tally', done + [reg], cfg)
    ensures tally'.processed == ScannedAmis(done + [reg])
  {
    var (allowedState, allowedAccounts) := AllowedOf(reg);
    tally' := tally;
    for j := 0 to |keys|
      invariant Classified(tally', done + [reg], cfg)
      invariant tally'.processed == ScannedAmis(done) + Elems(keys[..j])
    {
      ElemsSnoc(keys, j);
      assert keys[j] in Elems(keys);
      tally' := ClassifyKey(tally', done, keys[j], reg, allowedState, allowedAccounts, cfg);
    }
    assert keys[..|keys|] == keys;
    ReferenceAppend(done, reg, cfg, "");
  }

  /** The scan's state between regions: every AMI of the regions scanned so far is a key, processed and counted. */
  ghost predicate Scanned(amiKeys: seq<string>, tally: Tally, totalInstances: nat, regions: seq<Region>, cfg: Config) {
    Classified(tally, regions, cfg) &&
    NoDup(amiKeys) && Elems(amiKeys) == ScannedAmis(regions) && tally.processed == ScannedAmis(regions) &&
    totalInstances == InstanceCount(regions)
  }

  /** Step 6 for one region: skip it when it has no instances; else count them, record their AMIs and classify the new ones. */
  method ScanRegion(amiKeys: seq<string>, tally: Tally, totalInstances: nat, ghost done: seq<Region>, reg: Region, cfg: Config)
    returns (amiKeys': seq<string>, tally': Tally, totalInstances': nat)
    requires Scanned(amiKeys, tally, totalInstances, done, cfg)
    ensures Scanned(amiKeys', tally', totalInstances', done + [reg], cfg)
  {
    ReferenceAppend(done, reg, cfg, "");
    ClassifiedAppend(tally, done, reg, cfg);
    if |reg.instances| == 0 {
      assert Elems(reg.instances) == {};
      return amiKeys, tally, totalInstances;
    }
    totalInstances' := totalInstances + |reg.instances|;
    amiKeys' := RecordAmis(amiKeys, reg.instances);
    tally' := ClassifyNew(tally, done, amiKeys', reg, cfg);
  }

  datatype Metrics = Metrics(
    verifiedCount: nat,
    selfhostedCount: nat,
    allowedCount: nat,
    trustedCount: nat,
    privateSharedCount: nat,
    knownCount: nat,
    unknownCount: nat,
    withSnapshotLineage: nat,
    totalInstances: nat,
    totalAmis: nat)

  /** The results `analyze` compiles (timestamp left out). */
  datatype Report = Report(
    summary: string,
    totalInstances: nat,
    totalAmis: nat,
    amiData: Inventory,
    snapshotLineage: map<string, seq<SnapshotInfo>>,
    metrics: Metrics)

  /** The regions scanned: the requested ones, or all described regions when none were requested. */
  function RegionsToScan(requested: seq<Region>, described: seq<Region>): seq<Region> {
    if |requested| == 0 then described else requested
  }

  /** What the compiled results say about the regions: every AMI of them classified as the reference reading says, and the totals. */
  ghost predicate Describes(r: Report, regions: seq<Region>, cfg: Config) {
    Classified(Tally(ScannedAmis(regions), r.amiData, r.snapshotLineage), regions, cfg) &&
    r.totalInstances == InstanceCount(regions) && r.totalAmis == |ScannedAmis(regions)|
  }

  /** Step 6: scan the regions in order. */
  method ScanRegions(regions: seq<Region>, cfg: Config) returns (amiKeys: seq<string>, tally: Tally, totalInstances: nat)
    ensures Scanned(amiKeys, tally, totalInstances, regions, cfg)
  {
    amiKeys, tally, totalInstances := [], Tally({}, NoTiers, map[]), 0;
    for k := 0 to |regions|
      invariant Scanned(amiKeys, tally, totalInstances, regions[..k], cfg)
    {
      assert regions[..k + 1] == regions[..k] + [regions[k]];
      amiKeys, tally, totalInstances := ScanRegion(amiKeys, tally, totalInstances, regions[..k], regions[k], cfg);
    }
    assert regions[..|regions|] == regions;
  }

  /** The report built from a finished scan describes the regions. */
  lemma ScannedDescribed(amiKeys: seq<string>, tally: Tally, totalInstances: nat, regions: seq<Region>, cfg: Config)
    requires Scanned(amiKeys, tally, totalInstances, regions, cfg)
    ensures forall summary, metrics ::
      Describes(Report(summary, totalInstances, |tally.processed|, tally.tiers, tally.snapshotLineage, metrics), regions, cfg)
  {
  }

  /**
   * The AMI analysis: every AMI referenced in the scanned regions is in
   * exactly the tier of its first region's classification, with that
   * region's record and, for the lineage tiers, that region's snapshot
   * lineage when it has one; nothing is known_unverified; the totals count
   * instances and distinct AMIs.
   */
  method Analyze(requested: seq<Region>, described: seq<Region>, caller: string, trustedList: seq<string>) returns (r: Report)
    ensures Describes(r, RegionsToScan(requested, described), Config(caller, trustedList, NewVendorMap(None)))
    ensures r.amiData.knownUnverified == map[]
    ensures r.summary == "EC2 AMI inventory and EBS snapshot analysis complete"
    ensures r.metrics == Metrics(|r.amiData.verified|, |r.amiData.selfhosted|, |r.amiData.allowed|, |r.amiData.trusted|,
      |r.amiData.privateShared|, |r.amiData.knownUnverified|, |r.amiData.unknownUnverified|, |r.snapshotLineage|,
      r.totalInstances, r.totalAmis)
  {
    var regions := RegionsToScan(requested, described);
    var cfg := Config(caller, trustedList, NewVendorMap(None));
    var amiKeys, tally, totalInstances := ScanRegions(regions, cfg);
    NoKnownUnverified(tally, regions, caller, trustedList);
    ScannedDescribed(amiKeys, tally, totalInstances, regions, cfg);
    var t := tally.tiers;
    var totalAmis := |tally.processed|;
    r := Report("EC2 AMI inventory and EBS snapshot analysis complete", totalInstances, totalAmis, t, tally.snapshotLineage,
      Metrics(|t.verified|, |t.selfhosted|, |t.allowed|, |t.trusted|, |t.privateShared|, |t.knownUnverified|,
        |t.unknownUnverified|, |tally.snapshotLineage|, totalInstances, totalAmis));
  }

  /** With the analysis' empty vendor map the known_unverified dict stays empty. */
  lemma NoKnownUnverified(tally: Tally, regions: seq<Region>, caller: string, trustedList: seq<string>)
    requires Classified(tally, regions, Config(caller, trustedList, NewVendorMap(None)))
    ensures tally.tiers.knownUnverified == map[]
  {
    var ref := Refs(regions, Config(caller, trustedList, NewVendorMap(None)));
    forall a | a in tally.processed
      ensures ref[a].0 != KnownUnverified
    {
      NeverKnownUnverified(a, regions[FirstRegion(regions, a)], caller, trustedList);
    }
    assert TierClassified(tally.processed, tally.tiers.Get(KnownUnverified), ref, KnownUnverified);
    assert tally.tiers.Get(KnownUnverified) == tally.tiers.knownUnverified;
    assert tally.tiers.knownUnverified.Keys == {};
  }
}
