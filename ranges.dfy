/**
 * The validation-range table: the three numeric inputs of the form each
 * carry an inclusive (lower, upper) pair of bounds.
 */
module ValidationRanges {
  import FeatureColumns

  /** Field name to its (lower, upper) bounds. */
  const ValidRanges: map<string, (int, int)> := map[
    "Study_Hours_per_Week" := (0, 100),
    "Attendance_Rate" := (0, 100),
    "Past_Exam_Scores" := (0, 100)
  ]

  /** The table names exactly the three numeric fields and bounds each by 0 and 100. */
  lemma ValidRangesTable()
    ensures ValidRanges.Keys == {"Study_Hours_per_Week", "Attendance_Rate", "Past_Exam_Scores"}
    ensures forall k :: k in ValidRanges ==> ValidRanges[k] == (0, 100)
  {
  }

  /** No range-checked field is a parental one-hot column, whatever the feature list. */
  lemma RangedFieldsAreNotParental(features: seq<string>)
    ensures forall k :: k in ValidRanges ==> k !in FeatureColumns.ParentalCols(features)
  {
    forall k | k in ValidRanges ensures !FeatureColumns.IsParental(k) {
      // The third character already tells each field name from the prefix.
      assert FeatureColumns.ParentalPrefix[2] == 'r';
      assert k[2] in {'u', 't', 's'} by {
        assert k == "Study_Hours_per_Week" || k == "Attendance_Rate" || k == "Past_Exam_Scores";
      }
    }
  }
}
