/**
 * What one deployment card shows. The card is a pure function of the
 * deployment, whether its accordion is expanded, and the key of the deployment
 * that is currently installed. It is the only guard against switching to the
 * active deployment or to one that has nothing to install: the switch button
 * is simply not rendered for those.
 *
 * Rendering is reduced to the information shown: the title, the "Active"
 * badge, and either the "No package available" notice or the package section
 * (info rows, the switch button with the key it hands to the screen, and the
 * expandable details).
 */
module PreviewCard {
  import opened JsValues
  import opened Previews

  const NoPackageText := "No package available"
  const VersionLabel := "Version"
  const TargetVersionLabel := "Target Version"
  const ReleaseDateLabel := "Date of Release"

  datatype InfoRow = InfoRow(caption: string, value: string)

  /** The accordion content: the package size in bytes and the description if truthy. */
  datatype Details = Details(sizeBytes: nat, description: Option<string>)

  datatype CardBody =
    | NoPackageNotice(text: string)
      /** `switchKey` is the key the switch button passes when pressed; `None` when there is no button. */
    | PackageSection(infoRows: seq<InfoRow>, switchKey: Option<string>, expanded: bool, details: Option<Details>)

  datatype CardView = CardView(title: string, activeBadge: bool, body: CardBody)

  predicate HasPackage(d: Deployment) {
    d.package.Some?
  }

  predicate IsCurrentDeployment(d: Deployment, currentDeploymentKey: Option<string>) {
    currentDeploymentKey == Some(d.key)
  }

  predicate ShowsSwitchButton(v: CardView) {
    v.body.PackageSection? && v.body.switchKey.Some?
  }

  predicate ShowsDetails(v: CardView) {
    v.body.PackageSection? && v.body.details.Some?
  }

  predicate HasInfoRow(v: CardView, caption: string) {
    v.body.PackageSection? && exists i | 0 <= i < |v.body.infoRows| :: v.body.infoRows[i].caption == caption
  }

  /** A row shown only when its value is a non-empty string. */
  function RowIfTruthy(caption: string, value: string): seq<InfoRow> {
    if value != "" then [InfoRow(caption, value)] else []
  }

  function InfoRows(p: DeploymentPackage): (rows: seq<InfoRow>)
    ensures forall i :: 0 <= i < |rows| ==> rows[i].value != ""
    ensures forall i :: 0 <= i < |rows| ==>
              || (rows[i].caption == VersionLabel && rows[i].value == p.appVersion)
              || (rows[i].caption == TargetVersionLabel && rows[i].value == p.releaseLabel)
              || (rows[i].caption == ReleaseDateLabel && rows[i].value == p.uploadTime)
  {
    RowIfTruthy(VersionLabel, p.appVersion)
    + RowIfTruthy(TargetVersionLabel, p.releaseLabel)
    + RowIfTruthy(ReleaseDateLabel, p.uploadTime)
  }

  /** The `PreviewCard` component. */
  function Render(d: Deployment, isExpanded: bool, currentDeploymentKey: Option<string>): (v: CardView)
    ensures v.title == d.name
    ensures v.activeBadge <==> IsCurrentDeployment(d, currentDeploymentKey)
    ensures v.body.NoPackageNotice? <==> !HasPackage(d)
    ensures v.body.NoPackageNotice? ==> v.body.text == NoPackageText
    ensures ShowsSwitchButton(v) <==> HasPackage(d) && !IsCurrentDeployment(d, currentDeploymentKey)
    ensures ShowsSwitchButton(v) ==> v.body.switchKey == Some(d.key)
    ensures ShowsDetails(v) <==> HasPackage(d) && isExpanded
    ensures ShowsDetails(v) ==>
              && v.body.details.value.sizeBytes == d.package.value.size
              && (v.body.details.value.description.Some? <==> d.package.value.description != "")
              && (v.body.details.value.description.Some? ==>
                    v.body.details.value.description.value == d.package.value.description)
  {
    var body :=
      match d.package
      case None => NoPackageNotice(NoPackageText)
      case Some(p) =>
        PackageSection(
          InfoRows(p),
          if !IsCurrentDeployment(d, currentDeploymentKey) then Some(d.key) else None,
          isExpanded,
          if isExpanded then
            Some(Details(p.size, if p.description != "" then Some(p.description) else None))
          else None);
    CardView(d.name, IsCurrentDeployment(d, currentDeploymentKey), body)
  }

  /** The Version, Target Version and Date rows appear exactly for the truthy fields. */
  lemma InfoRowsFollowTruthyFields(d: Deployment, isExpanded: bool, currentDeploymentKey: Option<string>)
    requires HasPackage(d)
    ensures var v := Render(d, isExpanded, currentDeploymentKey);
            && (HasInfoRow(v, VersionLabel) <==> d.package.value.appVersion != "")
            && (HasInfoRow(v, TargetVersionLabel) <==> d.package.value.releaseLabel != "")
            && (HasInfoRow(v, ReleaseDateLabel) <==> d.package.value.uploadTime != "")
  {
    var p := d.package.value;
    var v := Render(d, isExpanded, currentDeploymentKey);
    var a, b, c := RowIfTruthy(VersionLabel, p.appVersion), RowIfTruthy(TargetVersionLabel, p.releaseLabel),
                   RowIfTruthy(ReleaseDateLabel, p.uploadTime);
    var rows := v.body.infoRows;
    assert rows == a + b + c;
    if p.appVersion != "" { assert rows[0].caption == VersionLabel; }
    if p.releaseLabel != "" { assert rows[|a|].caption == TargetVersionLabel; }
    if p.uploadTime != "" { assert rows[|a| + |b|].caption == ReleaseDateLabel; }
  }

  /**
   * The UI-level guard: a card offers a switch only to a deployment that has a
   * package and is not the active one, and the switch names that deployment.
   */
  lemma SwitchOnlyToOtherDeploymentWithPackage(d: Deployment, isExpanded: bool, currentDeploymentKey: Option<string>)
    ensures var v := Render(d, isExpanded, currentDeploymentKey);
            ShowsSwitchButton(v) ==>
              && d.package.Some?
              && currentDeploymentKey != Some(d.key)
              && v.body.switchKey == Some(d.key)
  {
  }

  /** With no known current key no card is active, and every card with a package can be switched to. */
  lemma NoCurrentKeyNoActiveCard(d: Deployment, isExpanded: bool)
    ensures var v := Render(d, isExpanded, None);
            !v.activeBadge && (ShowsSwitchButton(v) <==> HasPackage(d))
  {
  }

  /**
   * Two deployments, the first without a package and the second active: the
   * first shows the notice and no switch, the second is badged and offers no
   * switch either.
   */
  lemma ActiveAndEmptyCardsOfferNoSwitch(p: DeploymentPackage, isExpanded: bool)
    requires p.size == 1048576
    ensures var staging := Render(Deployment("1", "k1", "Staging", None, None), isExpanded, Some("k2"));
            var prod := Render(Deployment("2", "k2", "Prod", Some(p), None), isExpanded, Some("k2"));
            && staging.body == NoPackageNotice(NoPackageText) && !staging.activeBadge
            && !ShowsSwitchButton(staging)
            && prod.activeBadge && prod.body.PackageSection? && !ShowsSwitchButton(prod)
  {
  }
}
