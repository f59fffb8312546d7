# Dose comparison parameter node

This project models `vtkMRMLDoseComparisonNode` in SlicerRT's DoseComparison module. The node is a scene node that holds the parameters of a gamma dose comparison:

- three references to volume nodes: the reference dose, the compared dose and the gamma output. Each is a nullable ID string.
- five numbers: the distance-to-agreement tolerance in mm, the dose difference tolerance in percent, the reference dose in Gy, the analysis threshold in percent, and the maximum gamma.

The model covers the node's field-level behaviour:

- the defaults it is created with;
- the attributes it writes to a scene file (`WriteXML`);
- how it reads them back (`ReadXMLAttributes`);
- copying from another node (`Copy`);
- re-pointing its references when a referenced node's ID changes (`UpdateReferenceID`).

Layout:

- `Wrappers.dfy`: `Option`. `None` stands for a null `char*` ID.
- `DoseComparisonNode.dfy`: module `DoseComparison`. It contains:
  - the attribute names;
  - `Parameters`, the eight fields as a value;
  - the specification functions `Apply`, `ReadAll`, `LastValue`, `Written` and `Renamed`, with lemmas about them;
  - the class `DoseComparisonNode`, whose eight fields its methods assign in place.

  The constructor's `ensures` gives the eight defaults, which are also the value `Defaults()`. `Copy` ensures that the new state equals the source node's state before the call. `WriteXML`, `ReadXMLAttributes` and `UpdateReferenceID` tie their output or the new state to `Written`, `ReadAll` and `Renamed` respectively.

Representation choices:

- An XML attribute is a name/value pair (`Attribute`).
- The host parser passes the node a null-terminated array that alternates names and values. Here that array is a sequence of pairs, and `ReadXMLAttributes` loops over it one pair per iteration.
- The output stream is the sequence of attributes written so far. `WriteXML` appends to it.
- Numbers are `real`. Converting a number to text is the parameter `format`. Parsing text with the C library's `atof` is the parameter `atof`.

The node does not check that the tolerances are positive: reading stores whatever `atof` returns, and so does the model.

## Model

| member | source | states |
|---|---|---|
| `DoseComparison.DoseComparisonNode.constructor` | DoseComparison/Logic/vtkMRMLDoseComparisonNode.cxx:40-53 | A new node has all three IDs null, DTA 3.0 mm, dose difference 3.0 %, reference dose 0.0 Gy, threshold 0.0 % and maximum gamma 2.0. |
| `DoseComparison.DoseComparisonNode.WriteXML` | DoseComparison/Logic/vtkMRMLDoseComparisonNode.cxx:64-103 | Leaves what the stream already holds in place, then appends exactly the attributes `Written` gives for the node's current fields. |
| `DoseComparison.WrittenShape` | DoseComparison/Logic/vtkMRMLDoseComparisonNode.cxx:71-102 | The node writes one attribute per non-null ID plus five numbers. Every name is one of the node's eight. The names appear in strictly increasing order: Reference, Compare, Gamma, then DtaDistanceToleranceMm, DoseDifferenceTolerancePercent, ReferenceDoseGy, AnalysisThresholdPercent, MaximumGamma. No name repeats, and the last five are the numbers. |
| `DoseComparison.IdAttributesRanked` | DoseComparison/Logic/vtkMRMLDoseComparisonNode.cxx:71-96 | The ID block has exactly one attribute per non-null ID, in the order Reference, Compare, Gamma. |
| `DoseComparison.NumberAttributesRanked` | DoseComparison/Logic/vtkMRMLDoseComparisonNode.cxx:98-102 | The numeric block always has exactly five attributes, in the fixed order DtaDistanceToleranceMm, DoseDifferenceTolerancePercent, ReferenceDoseGy, AnalysisThresholdPercent, MaximumGamma. |
| `DoseComparison.WrittenId` | DoseComparison/Logic/vtkMRMLDoseComparisonNode.cxx:71-96 | An attribute named after an ID field appears if and only if that ID is non-null. Its value is the ID string. |
| `DoseComparison.WrittenNumber` | DoseComparison/Logic/vtkMRMLDoseComparisonNode.cxx:98-102 | Each numeric field is written under its own name, and its value is the formatted number. |
| `DoseComparison.DoseComparisonNode.ReadXMLAttributes` | DoseComparison/Logic/vtkMRMLDoseComparisonNode.cxx:106-168 | The pair-by-pair loop leaves the node in state `ReadAll(old state, atts)`. That is the effect of applying every pair in order, which the loop invariant carries. |
| `DoseComparison.Apply` | DoseComparison/Logic/vtkMRMLDoseComparisonNode.cxx:119-166 | A pair with one of the eight names sets only its own field: an ID to the value text, a number to `atof` of the value. A pair with any other name leaves the node unchanged. |
| `DoseComparison.ReadAllId` | DoseComparison/Logic/vtkMRMLDoseComparisonNode.cxx:114-136 | After reading, each ID equals the value of the last attribute with its name. If no attribute has that name, the ID keeps its previous value. |
| `DoseComparison.ReadAllNumber` | DoseComparison/Logic/vtkMRMLDoseComparisonNode.cxx:137-166 | After reading, each number is `atof` of the last attribute with its name. If no attribute has that name, the number keeps its previous value. |
| `DoseComparison.LastValueAt` | DoseComparison/Logic/vtkMRMLDoseComparisonNode.cxx:114-167 | The value `LastValue` finds is the value at the last position that holds the name. This is the "last occurrence wins" reference used by the two lemmas above. |
| `DoseComparison.ReadAllAppend` | DoseComparison/Logic/vtkMRMLDoseComparisonNode.cxx:114-167 | Reading a list is the same as reading its first part and then its second part. |
| `DoseComparison.ReadAllIgnoresUnknown` | DoseComparison/Logic/vtkMRMLDoseComparisonNode.cxx:114-167 | A list in which no name is one of the node's eight leaves every field unchanged. |
| `DoseComparison.ReadBackWritten` | DoseComparison/Logic/vtkMRMLDoseComparisonNode.cxx:71-166 | Start from any base-class attributes, then add what the node wrote, and read the result back into any node. Every non-null ID comes back as the same string. A null ID leaves the reader's field as it was. Each number comes back as `atof` of its formatted text. |
| `DoseComparison.ReadBackIntoNewNode` | DoseComparison/Logic/vtkMRMLDoseComparisonNode.cxx:71-136 | A freshly constructed node that reads what another node wrote ends up with that node's three IDs, null ones included. |
| `DoseComparison.DoseComparisonNode.Copy` | DoseComparison/Logic/vtkMRMLDoseComparisonNode.cxx:173-192 | All three IDs and all five numbers become those of the source node as they were before the call. This also holds when the source node is the node itself. |
| `DoseComparison.DoseComparisonNode.UpdateReferenceID` | DoseComparison/Logic/vtkMRMLDoseComparisonNode.cxx:211-225 | The new state is `Renamed(old state, oldID, newID)`. A null `oldID` is allowed only when all three IDs are null, because the source compares `oldID` with each non-null ID. |
| `DoseComparison.RenamedFields` | DoseComparison/Logic/vtkMRMLDoseComparisonNode.cxx:211-225 | Each ID that is non-null and equal to `oldID` becomes `newID`. A null `oldID` matches no ID. Each of the three is checked on its own, so all three can change. Null IDs, non-matching IDs and all numbers stay unchanged. |
| `DoseComparison.RenamedIdempotent` | DoseComparison/Logic/vtkMRMLDoseComparisonNode.cxx:211-225 | Renaming twice with the same arguments gives the same node as renaming once. |

## Left out

- Gamma-index search and Jacobian determinant: neither algorithm appears in the source files this model covers. `vtkMRMLDoseComparisonNode.cxx` holds only parameters. `PlastimatchPy/Logic/vtkPlmpyVectorFieldAnalysis.h` only declares `RunJacobian` and hands the work to Plastimatch's `vf_jacobian.h`, which is not part of this model. Both are also floating-point numerics.
- Number text conversion: writing a `double` to a stream and reading it with `atof` are the parameters `format` and `atof`. The model makes no claim about what they compute.
- ReadBackWritten: numbers are claimed to come back as `atof(format(x))` rather than `x`, because the stream's default precision can lose digits.
- XML text: the indentation, the quoting and the character layout of each attribute are not modelled. The source does not escape quotes or `&` in ID strings. An ID containing them would give malformed XML, and a model built on name/value pairs does not capture that.
- The host parser delivers attributes as a null-terminated array that alternates names and values. It is modelled as a sequence of complete pairs, and an array with an odd number of entries is not modelled.
- The base-class calls `Superclass::WriteXML`, `vtkMRMLNode::ReadXMLAttributes` and `Superclass::Copy` belong to the host scene graph. The attributes the base class writes appear only as the incoming stream content `of`, or as the unknown-name prefix `base` in `ReadBackWritten`.
- `HideFromEditors` is a base-class field, so the constructor's assignment to it is not modelled.
- Modified-event handling (`DisableModifiedEventOn`, `DisableModifiedEventOff`, `InvokePendingModifiedEvent`) is not modelled. The `Set…Id` macros skip an assignment of an equal string, which only affects these events, so the model assigns every time.
- `PrintSelf` is diagnostic output only.
- `char*` ownership in the `Set…Id` macros and the destructor: IDs are `Option<string>` values.
- `Copy` casts its argument without checking its type. In the model the parameter is typed as a dose comparison node.
- `UpdateReferenceID` compares `oldID` only with IDs that are non-null, so a null `oldID` is undefined behaviour (`strcmp` on null) only once some ID is non-null. The method's `requires` excludes exactly that case. A null `oldID` on a node with three null IDs is a no-op, and the model covers it. A null `newID` clears the matching IDs, as the setter does.
- The numbers are mathematical reals. The rounding of IEEE doubles is not modelled.
- `atof` is modelled as a function into the reals. It cannot return the NaN or infinity that the C function gives for texts such as "nan", "inf" or "1e999".
- IDs and attribute values are Dafny strings, which may contain the character '\0'. No C string can hold it, so `ReadBackWritten` and the other lemmas also cover values the source cannot hold.
