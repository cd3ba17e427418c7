/** `services/models.py`: the feature list of a service, one feature per line. */
module Services {
  import opened PyText

  datatype Service = Service(name: string, serviceType: string, features: string)

  /** `get_features_list`: every non-blank line of `features`, stripped, in order. */
  function FeaturesList(s: Service): (items: seq<string>)
    ensures LineItemsOf(s.features, items)
  {
    NonBlankLinesItems(s.features);
    NonBlankLines(s.features)
  }

  /** A feature text written one clean feature per line comes back line for line. */
  lemma CleanLinesKept(s: Service)
    requires forall i :: 0 <= i < |SplitLines(s.features)| ==> !AllSpace(SplitLines(s.features)[i])
    ensures |FeaturesList(s)| == |SplitLines(s.features)|
  {
  }
}
